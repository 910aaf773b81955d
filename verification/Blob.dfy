/** Temp files of the blob store: their names, and the sweep at the start of the service. */
module Blob {
  import opened Bytes
  import opened Domain
  import opened Strings
  import opened Wrappers

  const TEMP_SUFFIX := "part"

  type Dir = map<string, Data>

  /** Where the last dot of a name is, or -1. */
  function LastDot(name: string): (i: int)
    ensures -1 <= i < |name|
  {
    if name == "" then -1 else if name[|name| - 1] == '.' then |name| - 1 else LastDot(name[..|name| - 1])
  }

  /** What follows the last dot, unless the name has none or only begins with it. */
  function Extension(name: string): Option<string> {
    if name == ".." || LastDot(name) <= 0 then None else Some(name[LastDot(name) + 1..])
  }

  function TempName(id: Id): string {
    "upload-" + Decimal(id) + "." + TEMP_SUFFIX
  }

  lemma {:induction false} DotThen(a: string, b: string)
    requires '.' !in b
    ensures LastDot(a + "." + b) == |a|
    decreases |b|
  {
    var s := a + "." + b;
    if b == "" {
      assert s[|s| - 1] == '.';
    } else {
      var init := b[..|b| - 1];
      assert s[..|s| - 1] == a + "." + init;
      DotThen(a, init);
    }
  }

  /** The extension is what follows the last dot of a name, unless nothing comes before that dot. */
  lemma ExtensionIs(stem: string, ending: string)
    requires '.' !in ending
    ensures stem != "" && stem + "." + ending != ".." ==> Extension(stem + "." + ending) == Some(ending)
    ensures Extension("." + ending).None? && Extension(ending).None?
  {
    DotThen(stem, ending);
    DotThen("", ending);
    assert "" + "." + ending == "." + ending;
    assert (stem + "." + ending)[|stem| + 1..] == ending;
    NoDot(ending);
  }

  lemma {:induction false} NoDot(name: string)
    requires '.' !in name
    ensures LastDot(name) == -1
    decreases |name|
  {
    if name != "" {
      NoDot(name[..|name| - 1]);
    }
  }

  /** Every temp file of an upload has the suffix the sweep looks for. */
  lemma TempIsPart(id: Id)
    ensures Extension(TempName(id)) == Some(TEMP_SUFFIX)
  {
    var a := "upload-" + Decimal(id);
    DotThen(a, TEMP_SUFFIX);
    assert TempName(id) == a + "." + TEMP_SUFFIX;
    assert TempName(id)[|a| + 1..] == TEMP_SUFFIX && TempName(id)[0] == 'u';
  }

  lemma TempNamesDiffer(a: Id, b: Id)
    requires TempName(a) == TempName(b)
    ensures a == b
  {
    var x, y := TempName(a), TempName(b);
    assert x[7..|x| - 5] == Decimal(a) && y[7..|y| - 5] == Decimal(b);
    DecimalsDiffer(a, b);
  }

  /** A directory without its `.part` files, except those whose removal failed. */
  function Swept(dir: Dir, stuck: set<string>): Dir {
    map name | name in dir && (Extension(name) != Some(TEMP_SUFFIX) || name in stuck) :: dir[name]
  }

  class BlobStore {
    var tmp: Dir

    constructor (tmp: Dir)
      ensures this.tmp == tmp
    {
      this.tmp := tmp;
    }

    /** `clean_stale_temp`: a removal may fail, and that is ignored. */
    method CleanStaleTemp(stuck: set<string>)
      modifies this
      ensures tmp == Swept(old(tmp), stuck)
    {
      var entries := tmp.Keys;
      while entries != {}
        invariant entries <= old(tmp.Keys)
        invariant tmp == map name | name in old(tmp) && (name in entries || name in Swept(old(tmp), stuck))
                                  :: old(tmp)[name]
        decreases entries
      {
        var name :| name in entries;
        if Extension(name) == Some(TEMP_SUFFIX) && name !in stuck {
          tmp := tmp - {name};
        }
        entries := entries - {name};
      }
    }
  }
}
