/** The fixed catalogue of conversion schemes and the scan that tests membership. */
module Schemes {

  /** SCHEMES, in declaration order. */
  const SCHEMES: seq<string> :=
    ["s2t", "t2s", "s2tw", "tw2s", "s2hk", "hk2s", "s2twp", "tw2sp", "t2tw", "t2hk"]

  /** A mode is valid when it is one of the catalogue entries. */
  predicate IsScheme(mode: string) {
    mode in SCHEMES
  }

  /**
   * The result of the `for _, value := range list` loop with `break`: true
   * at the first entry equal to `mode`, false when the list runs out.
   */
  function Found(list: seq<string>, mode: string): bool
  {
    if list == [] then false
    else if list[0] == mode then true
    else Found(list[1..], mode)
  }

  /** The scan finds `mode` exactly when it is an entry of the list. */
  lemma {:induction false} FoundIsIn(list: seq<string>, mode: string)
    ensures Found(list, mode) <==> mode in list
  {
    if list != [] {
      FoundIsIn(list[1..], mode);
      assert list == [list[0]] + list[1..];
    }
  }

  /** The scan loop over any list, stepwise: `valid` is what `Found` says. */
  method ScanList(list: seq<string>, mode: string) returns (valid: bool)
    ensures valid == Found(list, mode)
    ensures valid <==> mode in list
  {
    valid := false;
    for i := 0 to |list|
      invariant valid ==> mode in list
      invariant !valid ==> forall j :: 0 <= j < i ==> list[j] != mode
    {
      if list[i] == mode {
        valid := true;
        break;
      }
    }
    FoundIsIn(list, mode);
  }

  /**
   * The loop both handlers run over SCHEMES: `valid` ends true exactly when
   * some entry equals `mode`.
   */
  method ScanSchemes(mode: string) returns (valid: bool)
    ensures valid <==> IsScheme(mode)
  {
    valid := ScanList(SCHEMES, mode);
  }

  /** The catalogue has ten entries, pairwise distinct. */
  lemma SchemesDistinct()
    ensures |SCHEMES| == 10
    ensures forall i, j :: 0 <= i < j < |SCHEMES| ==> SCHEMES[i] != SCHEMES[j]
  {
  }

  /** Validity is equality with one of the ten literals. */
  lemma IsSchemeIffListed(mode: string)
    ensures IsScheme(mode) <==>
      || mode == "s2t" || mode == "t2s" || mode == "s2tw" || mode == "tw2s"
      || mode == "s2hk" || mode == "hk2s" || mode == "s2twp" || mode == "tw2sp"
      || mode == "t2tw" || mode == "t2hk"
  {
  }

  /** Scanning any reordering of the catalogue gives the same answer as scanning SCHEMES. */
  lemma ScanOrderIrrelevant(reordered: seq<string>, mode: string)
    requires multiset(reordered) == multiset(SCHEMES)
    ensures Found(reordered, mode) == Found(SCHEMES, mode)
  {
    FoundIsIn(reordered, mode);
    FoundIsIn(SCHEMES, mode);
    assert mode in reordered <==> mode in multiset(reordered);
    assert mode in SCHEMES <==> mode in multiset(SCHEMES);
  }

  /** No valid scheme is empty or contains a slash. */
  lemma SchemeShape(mode: string)
    requires IsScheme(mode)
    ensures mode != "" && '/' !in mode
  {
  }

  /** The default scheme of the form endpoint is in the catalogue. */
  lemma DefaultIsScheme()
    ensures IsScheme("t2s")
  {
  }
}
