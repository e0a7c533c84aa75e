/** Naming of the load columns that a transfer adds to the column table:
    one key per selected load case and, for two or more cases, a combined key. */
module LoadKeys {

  /** The key under which the peak axial force of load case `lc` is stored. */
  function CaseKey(lc: string): string
  {
    "P_max_" + lc
  }

  /** The per-case keys, appended one by one in selection order. */
  function CaseKeys(cases: seq<string>): (keys: seq<string>)
    ensures |keys| == |cases|
    decreases |cases|
  {
    if cases == [] then []
    else CaseKeys(cases[..|cases| - 1]) + [CaseKey(cases[|cases| - 1])]
  }

  /** `sep.join(parts)`: the parts in order, with `sep` between neighbours. */
  function Join(sep: string, parts: seq<string>): string
    decreases |parts|
  {
    if |parts| == 0 then ""
    else if |parts| == 1 then parts[0]
    else Join(sep, parts[..|parts| - 1]) + sep + parts[|parts| - 1]
  }

  /** The combined key: "P_max" and the case names, joined with underscores. */
  function CombinedKey(cases: seq<string>): string
  {
    Join("_", ["P_max"] + cases)
  }

  /** Reference spelling: each case contributes "_" followed by its name. */
  function Underscored(cases: seq<string>): string
    decreases |cases|
  {
    if cases == [] then ""
    else Underscored(cases[..|cases| - 1]) + "_" + cases[|cases| - 1]
  }

  /** The keys a transfer writes, in order: the per-case keys and, when more
      than one case is selected, the combined key last. */
  function WrittenKeys(cases: seq<string>): seq<string>
  {
    if |cases| > 1 then CaseKeys(cases) + [CombinedKey(cases)] else CaseKeys(cases)
  }

  /** The key whose values are handed to the loading layer: the last written key. */
  function OutputKey(cases: seq<string>): string
    requires |cases| >= 1
  {
    WrittenKeys(cases)[|WrittenKeys(cases)| - 1]
  }

  /** One key per case, in selection order, each "P_max_" followed by the case. */
  lemma {:induction false} CaseKeysInOrder(cases: seq<string>)
    ensures forall i :: 0 <= i < |cases| ==> CaseKeys(cases)[i] == "P_max_" + cases[i]
    decreases |cases|
  {
    if cases != [] {
      var n := |cases| - 1;
      CaseKeysInOrder(cases[..n]);
      forall i | 0 <= i < n
        ensures CaseKeys(cases)[i] == "P_max_" + cases[i]
      {
        assert cases[..n][i] == cases[i];
      }
    }
  }

  /** Distinct cases get distinct keys. */
  lemma CaseKeyInjective(a: string, b: string)
    ensures CaseKey(a) == CaseKey(b) ==> a == b
  {
    if CaseKey(a) == CaseKey(b) {
      assert a == CaseKey(a)[6..];
      assert b == CaseKey(b)[6..];
    }
  }

  /** The combined key is "P_max" followed by "_" + name for each case in order. */
  lemma {:induction false} CombinedKeySpelling(cases: seq<string>)
    ensures CombinedKey(cases) == "P_max" + Underscored(cases)
    decreases |cases|
  {
    if cases != [] {
      var n := |cases| - 1;
      CombinedKeySpelling(cases[..n]);
      var parts := ["P_max"] + cases;
      assert parts[..|parts| - 1] == ["P_max"] + cases[..n];
    }
  }

  /** Selecting DL then LL gives the combined key P_max_DL_LL. */
  lemma CombinedKeyExample()
    ensures CombinedKey(["DL", "LL"]) == "P_max_DL_LL"
  {
    CombinedKeySpelling(["DL", "LL"]);
    assert ["DL", "LL"][..1] == ["DL"];
    assert ["DL"][..0] == [];
  }

  lemma {:induction false} UnderscoredLength(cases: seq<string>)
    ensures |Underscored(cases)| >= |cases|
    ensures forall i :: 0 <= i < |cases| ==> |Underscored(cases)| >= |cases[i]| + |cases|
    decreases |cases|
  {
    if cases != [] {
      var n := |cases| - 1;
      UnderscoredLength(cases[..n]);
      forall i | 0 <= i < n
        ensures |Underscored(cases)| >= |cases[i]| + |cases|
      {
        assert cases[..n][i] == cases[i];
      }
    }
  }

  /** With two or more cases the combined key is none of the per-case keys, so
      writing it never overwrites a per-case column. */
  lemma CombinedKeyIsFresh(cases: seq<string>, c: string)
    requires |cases| >= 2 && c in cases
    ensures CombinedKey(cases) != CaseKey(c)
  {
    CombinedKeySpelling(cases);
    UnderscoredLength(cases);
    var i :| 0 <= i < |cases| && cases[i] == c;
    assert |CombinedKey(cases)| >= 5 + |c| + 2;
  }

  /** The output key is the combined key for several cases, the case key for one. */
  lemma OutputKeyChoice(cases: seq<string>)
    requires |cases| >= 1
    ensures OutputKey(cases) == if |cases| > 1 then CombinedKey(cases) else "P_max_" + cases[0]
  {
    CaseKeysInOrder(cases);
  }

  /** The written keys: exactly one per case, plus the combined key when one
      was built; a single case gives no combined key. */
  lemma WrittenKeysContents(cases: seq<string>)
    ensures |WrittenKeys(cases)| == if |cases| > 1 then |cases| + 1 else |cases|
    ensures forall i :: 0 <= i < |cases| ==> WrittenKeys(cases)[i] == "P_max_" + cases[i]
    ensures |cases| > 1 ==> WrittenKeys(cases)[|cases|] == CombinedKey(cases)
  {
    CaseKeysInOrder(cases);
  }
}
