/** Tags: trimmed, lowercased, deduplicated in first-seen order, then validated. */
module Tags {
  import opened Strings
  import opened Wrappers

  const MAX_TAGS := 16
  const MAX_TAG_LEN := 32

  datatype TagError = TooMany(count: nat) | Invalid(tag: string)

  function LowerChar(c: char): char {
    if 'A' <= c <= 'Z' then (c as int + 32) as char else c
  }

  function Lower(s: string): (t: string)
    ensures |t| == |s| && forall i | 0 <= i < |s| :: t[i] == LowerChar(s[i])
  {
    if s == "" then "" else [LowerChar(s[0])] + Lower(s[1..])
  }

  function Normal(raw: string): string {
    Lower(Trim(raw))
  }

  predicate IsWord(c: char) {
    'a' <= c <= 'z' || '0' <= c <= '9'
  }

  predicate IsValidTag(tag: string) {
    && 0 < |tag| <= MAX_TAG_LEN && IsWord(tag[0])
    && forall i | 0 < i < |tag| :: IsWord(tag[i]) || tag[i] == '_' || tag[i] == '-'
  }

  /** The distinct normal forms, where each is first seen. */
  function Distinct(raw: seq<string>): seq<string> {
    if raw == [] then []
    else
      var (init, tag) := (Distinct(raw[..|raw| - 1]), Normal(raw[|raw| - 1]));
      if tag in init then init else init + [tag]
  }

  predicate AllValid(tags: seq<string>) {
    forall i | 0 <= i < |tags| :: IsValidTag(tags[i])
  }

  predicate NoRepeats(tags: seq<string>) {
    forall i, j | 0 <= i < j < |tags| :: tags[i] != tags[j]
  }

  method New(raw: seq<string>) returns (tags: Result<seq<string>, TagError>)
    ensures tags.Success? <==> |Distinct(raw)| <= 16 && AllValid(Distinct(raw))
    ensures tags.Success? ==> tags.value == Distinct(raw)
    ensures |Distinct(raw)| > 16 ==> tags == Failure(TooMany(|Distinct(raw)|))
    ensures tags.Failure? && tags.error.Invalid? ==>
              exists i | 0 <= i < |Distinct(raw)| ::
                tags.error.tag == Distinct(raw)[i] && !IsValidTag(Distinct(raw)[i]) && AllValid(Distinct(raw)[..i])
  {
    var normalized: seq<string> := [];
    for i := 0 to |raw|
      invariant normalized == Distinct(raw[..i])
    {
      assert raw[..i + 1][..i] == raw[..i];
      var tag := Normal(raw[i]);
      if tag !in normalized {
        normalized := normalized + [tag];
      }
    }
    assert raw[..|raw|] == raw;
    if |normalized| > MAX_TAGS {
      return Failure(TooMany(|normalized|));
    }
    for i := 0 to |normalized|
      invariant AllValid(normalized[..i])
    {
      if !IsValidTag(normalized[i]) {
        return Failure(Invalid(normalized[i]));
      }
      assert normalized[..i + 1] == normalized[..i] + [normalized[i]];
    }
    assert normalized[..|normalized|] == normalized;
    return Success(normalized);
  }

  /** No tag twice, none added, none dropped. */
  lemma {:induction false} DistinctIsASet(raw: seq<string>)
    ensures NoRepeats(Distinct(raw))
    ensures forall tag :: tag in Distinct(raw) <==> exists i | 0 <= i < |raw| :: Normal(raw[i]) == tag
  {
    if raw != [] {
      var init, n := raw[..|raw| - 1], |raw| - 1;
      DistinctIsASet(init);
      forall tag ensures tag in Distinct(raw) <==> exists i | 0 <= i < |raw| :: Normal(raw[i]) == tag {
        if tag in Distinct(init) {
          var i :| 0 <= i < |init| && Normal(init[i]) == tag;
          assert raw[i] == init[i];
        }
        if i :| 0 <= i < |raw| && Normal(raw[i]) == tag {
          assert i < n ==> init[i] == raw[i];
        }
      }
    }
  }

  /** Tags seen earlier come earlier: more input only extends the list. */
  lemma {:induction false} FirstSeenFirst(raw: seq<string>, k: nat)
    requires k <= |raw|
    ensures Distinct(raw[..k]) <= Distinct(raw)
    decreases |raw|
  {
    if k < |raw| {
      var init := raw[..|raw| - 1];
      assert init[..k] == raw[..k];
      FirstSeenFirst(init, k);
    } else {
      assert raw[..k] == raw;
    }
  }

  lemma {:induction false} LowerKeeps(s: string)
    requires forall i | 0 <= i < |s| :: LowerChar(s[i]) == s[i]
    ensures Lower(s) == s
  {
    if s != "" {
      LowerKeeps(s[1..]);
    }
  }

  lemma ValidIsNormal(tag: string)
    requires IsValidTag(tag)
    ensures Normal(tag) == tag
  {
    assert TrimStart(tag) == tag && TrimEnd(tag) == tag;
    LowerKeeps(tag);
  }

  lemma DistinctOfMore(init: seq<string>, raw: string)
    ensures Distinct(init + [raw])
            == if Normal(raw) in Distinct(init) then Distinct(init) else Distinct(init) + [Normal(raw)]
  {
    assert (init + [raw])[..|init|] == init;
  }

  lemma {:induction false} DistinctKeeps(tags: seq<string>)
    requires AllValid(tags) && NoRepeats(tags)
    ensures Distinct(tags) == tags
  {
    if tags != [] {
      var init, last := tags[..|tags| - 1], tags[|tags| - 1];
      assert AllValid(init) && NoRepeats(init) && IsValidTag(last) && last !in init;
      DistinctKeeps(init);
      ValidIsNormal(last);
      DistinctOfMore(init, last);
      assert tags == init + [last];
    }
  }

  /** Accepted tags are accepted again, unchanged. */
  lemma NormalizingTwice(raw: seq<string>)
    requires AllValid(Distinct(raw))
    ensures Distinct(Distinct(raw)) == Distinct(raw)
  {
    DistinctIsASet(raw);
    DistinctKeeps(Distinct(raw));
  }

  const LETTERS := "abcdefghijklmnopqrstuvwxyz"
  const DIGITS := "0123456789"

  /** `d` is `c`, or the small letter with its place in the alphabet if `c` is a capital one. */
  predicate IsLowered(c: char, d: char) {
    if 'A' <= c <= 'Z' then d as int - 'a' as int == c as int - 'A' as int else d == c
  }

  /** A normal form is what is left between the white space at both ends, capital letters lowered. */
  lemma NormalFormIs(raw: string)
    ensures exists i: nat, j: nat | CutsSpace(raw, i, j) ::
              |Normal(raw)| == j - i && forall k | 0 <= k < j - i :: IsLowered(raw[i + k], Normal(raw)[k])
  {
    TrimCutsSpace(raw);
    var i: nat, j: nat :| CutsSpace(raw, i, j) && Trim(raw) == raw[i..j];
    forall k | 0 <= k < j - i ensures IsLowered(raw[i + k], Normal(raw)[k]) {
      assert Trim(raw)[k] == raw[i + k] && Normal(raw)[k] == LowerChar(raw[i + k]);
    }
  }

  /** What a valid tag is made of. */
  lemma ValidTagsAreSpelled(tag: string)
    ensures IsValidTag(tag) <==>
              && 1 <= |tag| <= 32 && tag[0] in LETTERS + DIGITS
              && forall i | 0 <= i < |tag| :: tag[i] in LETTERS + DIGITS + "_-"
  {
    forall c: char ensures IsWord(c) <==> c in LETTERS + DIGITS {
      if 'a' <= c <= 'z' {
        assert LETTERS[c as int - 'a' as int] == c;
      } else if '0' <= c <= '9' {
        assert DIGITS[c as int - '0' as int] == c;
      }
    }
  }
}
