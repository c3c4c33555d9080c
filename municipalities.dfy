/**
 * The fixed table from municipality codes to the base URL of that
 * municipality's eBPLS backend, and the two lookups on it
 * (`getMunicipalityApiUrl`, `getAvailableMunicipalities`).
 */
module Municipalities {
  import opened Wrappers

  /** The table as written: (code, base URL) pairs, in declaration order. */
  const Entries: seq<(string, string)> := [
    ("abuyog", "http://192.168.1.101:8080/ebpls/api/mobile"),
    ("alangalang", "http://192.168.1.102:8080/ebpls/api/mobile"),
    ("albuera", "http://192.168.1.103:8080/ebpls/api/mobile"),
    ("babatngon", "http://192.168.1.104:8080/ebpls/api/mobile"),
    ("barugo", "http://192.168.1.105:8080/ebpls/api/mobile"),
    ("bato", "http://192.168.1.106:8080/ebpls/api/mobile"),
    ("baybay", "http://192.168.0.180:8080/ebpls/api/mobile"),
    ("burauen", "http://192.168.1.108:8080/ebpls/api/mobile"),
    ("calubian", "http://192.168.1.109:8080/ebpls/api/mobile"),
    ("capoocan", "http://192.168.1.110:8080/ebpls/api/mobile"),
    ("carigara", "http://192.168.1.111:8080/ebpls/api/mobile"),
    ("dagami", "http://192.168.1.112:8080/ebpls/api/mobile"),
    ("dulag", "http://192.168.1.113:8080/ebpls/api/mobile"),
    ("hilongos", "http://192.168.1.114:8080/ebpls/api/mobile"),
    ("hindang", "http://192.168.1.115:8080/ebpls/api/mobile"),
    ("inopacan", "http://192.168.1.116:8080/ebpls/api/mobile"),
    ("isabel", "http://192.168.1.117:8080/ebpls/api/mobile"),
    ("jaro", "http://192.168.1.118:8080/ebpls/api/mobile"),
    ("javier", "http://192.168.1.119:8080/ebpls/api/mobile"),
    ("julita", "http://192.168.1.120:8080/ebpls/api/mobile"),
    ("kananga", "http://192.168.1.121:8080/ebpls/api/mobile"),
    ("lapaz", "http://192.168.1.122:8080/ebpls/api/mobile"),
    ("leyte", "http://192.168.1.123:8080/ebpls/api/mobile"),
    ("macarthur", "http://192.168.1.124:8080/ebpls/api/mobile"),
    ("mahaplag", "http://192.168.1.125:8080/ebpls/api/mobile"),
    ("matagob", "http://192.168.1.126:8080/ebpls/api/mobile"),
    ("matalom", "http://192.168.1.127:8080/ebpls/api/mobile"),
    ("mayorga", "http://192.168.1.128:8080/ebpls/api/mobile"),
    ("merida", "http://192.168.1.129:8080/ebpls/api/mobile"),
    ("palo", "http://192.168.1.130:8080/ebpls/api/mobile"),
    ("palompon", "http://192.168.1.131:8080/ebpls/api/mobile"),
    ("pastrana", "http://192.168.1.132:8080/ebpls/api/mobile"),
    ("sanisidro", "http://192.168.1.133:8080/ebpls/api/mobile"),
    ("sanmiguel", "http://192.168.1.134:8080/ebpls/api/mobile"),
    ("santafe", "http://192.168.1.135:8080/ebpls/api/mobile"),
    ("tabango", "http://192.168.1.136:8080/ebpls/api/mobile"),
    ("tanauan", "http://192.168.1.137:8080/ebpls/api/mobile"),
    ("tolosa", "http://192.168.1.138:8080/ebpls/api/mobile"),
    ("tunga", "http://192.168.1.139:8080/ebpls/api/mobile"),
    ("villaba", "http://192.168.1.140:8080/ebpls/api/mobile")
  ]

  /** The codes of a list of entries, in order. */
  function Codes(es: seq<(string, string)>): seq<string>
  {
    seq(|es|, i requires 0 <= i < |es| => es[i].0)
  }

  /** The URL of the first entry of `es` whose code is `code`, if any. */
  function Find(es: seq<(string, string)>, code: string): (r: Option<string>)
    ensures r.Some? <==> code in Codes(es)
    ensures r.Some? ==> (code, r.value) in es
  {
    if es == [] then None
    else
      assert Codes(es) == [es[0].0] + Codes(es[1..]);
      if es[0].0 == code then Some(es[0].1) else Find(es[1..], code)
  }

  /** No code and no URL in the table is empty, so both are always truthy. */
  lemma {:induction false} TableEntriesNonEmpty(code: string, url: string)
    requires (code, url) in Entries
    ensures code != "" && url != ""
  {
    var i :| 0 <= i < |Entries| && Entries[i] == (code, url);
    assert forall j :: 0 <= j < |Entries| ==> Entries[j].0 != "" && Entries[j].1 != "";
  }

  /** Strict lexicographic order on codes (a proper prefix comes first). */
  predicate Below(a: string, b: string)
  {
    b != [] && (a == [] || a[0] < b[0] || (a[0] == b[0] && Below(a[1..], b[1..])))
  }

  /** No code comes strictly before itself. */
  lemma {:induction false} BelowIrreflexive(a: string)
    ensures !Below(a, a)
  {
    if a != [] {
      BelowIrreflexive(a[1..]);
    }
  }

  /** The order is transitive. */
  lemma {:induction false} BelowTransitive(a: string, b: string, c: string)
    requires Below(a, b) && Below(b, c)
    ensures Below(a, c)
  {
    if a != [] && a[0] == b[0] && b[0] == c[0] {
      BelowTransitive(a[1..], b[1..], c[1..]);
    }
  }

  /** Codes 0 to 5 of the table are in strictly ascending order. */
  lemma AdjacentCodesAscend1(i: nat)
    requires 0 <= i < 5
    ensures Below(Entries[i].0, Entries[i + 1].0)
  {
    if i == 0 {
      assert Below("abuyog", "alangalang");
    } else if i == 1 {
      assert Below("alangalang", "albuera");
    } else if i == 2 {
      assert Below("albuera", "babatngon");
    } else if i == 3 {
      assert Below("babatngon", "barugo");
    } else {
      assert Below("barugo", "bato");
    }
  }

  /** Codes 5 to 10 of the table are in strictly ascending order. */
  lemma AdjacentCodesAscend2(i: nat)
    requires 5 <= i < 10
    ensures Below(Entries[i].0, Entries[i + 1].0)
  {
    if i == 5 {
      assert Below("bato", "baybay");
    } else if i == 6 {
      assert Below("baybay", "burauen");
    } else if i == 7 {
      assert Below("burauen", "calubian");
    } else if i == 8 {
      assert Below("calubian", "capoocan");
    } else {
      assert Below("capoocan", "carigara");
    }
  }

  /** Codes 10 to 15 of the table are in strictly ascending order. */
  lemma AdjacentCodesAscend3(i: nat)
    requires 10 <= i < 15
    ensures Below(Entries[i].0, Entries[i + 1].0)
  {
    if i == 10 {
      assert Below("carigara", "dagami");
    } else if i == 11 {
      assert Below("dagami", "dulag");
    } else if i == 12 {
      assert Below("dulag", "hilongos");
    } else if i == 13 {
      assert Below("hilongos", "hindang");
    } else {
      assert Below("hindang", "inopacan");
    }
  }

  /** Codes 15 to 20 of the table are in strictly ascending order. */
  lemma AdjacentCodesAscend4(i: nat)
    requires 15 <= i < 20
    ensures Below(Entries[i].0, Entries[i + 1].0)
  {
    if i == 15 {
      assert Below("inopacan", "isabel");
    } else if i == 16 {
      assert Below("isabel", "jaro");
    } else if i == 17 {
      assert Below("jaro", "javier");
    } else if i == 18 {
      assert Below("javier", "julita");
    } else {
      assert Below("julita", "kananga");
    }
  }

  /** Codes 20 to 25 of the table are in strictly ascending order. */
  lemma AdjacentCodesAscend5(i: nat)
    requires 20 <= i < 25
    ensures Below(Entries[i].0, Entries[i + 1].0)
  {
    if i == 20 {
      assert Below("kananga", "lapaz");
    } else if i == 21 {
      assert Below("lapaz", "leyte");
    } else if i == 22 {
      assert Below("leyte", "macarthur");
    } else if i == 23 {
      assert Below("macarthur", "mahaplag");
    } else {
      assert Below("mahaplag", "matagob");
    }
  }

  /** Codes 25 to 30 of the table are in strictly ascending order. */
  lemma AdjacentCodesAscend6(i: nat)
    requires 25 <= i < 30
    ensures Below(Entries[i].0, Entries[i + 1].0)
  {
    if i == 25 {
      assert Below("matagob", "matalom");
    } else if i == 26 {
      assert Below("matalom", "mayorga");
    } else if i == 27 {
      assert Below("mayorga", "merida");
    } else if i == 28 {
      assert Below("merida", "palo");
    } else {
      assert Below("palo", "palompon");
    }
  }

  /** Codes 30 to 35 of the table are in strictly ascending order. */
  lemma AdjacentCodesAscend7(i: nat)
    requires 30 <= i < 35
    ensures Below(Entries[i].0, Entries[i + 1].0)
  {
    if i == 30 {
      assert Below("palompon", "pastrana");
    } else if i == 31 {
      assert Below("pastrana", "sanisidro");
    } else if i == 32 {
      assert Below("sanisidro", "sanmiguel");
    } else if i == 33 {
      assert Below("sanmiguel", "santafe");
    } else {
      assert Below("santafe", "tabango");
    }
  }

  /** Codes 35 to 39 of the table are in strictly ascending order. */
  lemma AdjacentCodesAscend8(i: nat)
    requires 35 <= i < 39
    ensures Below(Entries[i].0, Entries[i + 1].0)
  {
    if i == 35 {
      assert Below("tabango", "tanauan");
    } else if i == 36 {
      assert Below("tanauan", "tolosa");
    } else if i == 37 {
      assert Below("tolosa", "tunga");
    } else {
      assert Below("tunga", "villaba");
    }
  }

  /** Each code of the table comes strictly before the next one: the table is alphabetical. */
  lemma AdjacentCodesAscend(i: nat)
    requires i + 1 < |Entries|
    ensures Below(Entries[i].0, Entries[i + 1].0)
  {
    if i < 5 { AdjacentCodesAscend1(i); }
    else if i < 10 { AdjacentCodesAscend2(i); }
    else if i < 15 { AdjacentCodesAscend3(i); }
    else if i < 20 { AdjacentCodesAscend4(i); }
    else if i < 25 { AdjacentCodesAscend5(i); }
    else if i < 30 { AdjacentCodesAscend6(i); }
    else if i < 35 { AdjacentCodesAscend7(i); }
    else { AdjacentCodesAscend8(i); }
  }

  /** Any earlier code of the table comes strictly before any later one. */
  lemma {:induction false} CodesAscend(cs: seq<string>, i: nat, j: nat)
    requires forall k :: 0 <= k < |cs| - 1 ==> Below(cs[k], cs[k + 1])
    requires i < j < |cs|
    ensures Below(cs[i], cs[j])
    decreases j - i
  {
    if i + 1 < j {
      CodesAscend(cs, i + 1, j);
      BelowTransitive(cs[i], cs[i + 1], cs[j]);
    }
  }

  /** No code appears twice in the table. */
  lemma CodesDistinct(i: nat, j: nat)
    requires i < j < |Entries|
    ensures Entries[i].0 != Entries[j].0
  {
    var cs := Codes(Entries);
    forall k | 0 <= k < |cs| - 1
      ensures Below(cs[k], cs[k + 1])
    {
      AdjacentCodesAscend(k);
    }
    CodesAscend(cs, i, j);
    BelowIrreflexive(cs[i]);
  }

  /** `MUNICIPALITY_APIS[municipality]`: the base URL for a code, or nothing. */
  function GetMunicipalityApiUrl(code: string): (r: Option<string>)
    ensures r.Some? <==> code in AvailableMunicipalities()
    ensures r.Some? ==> code != "" && r.value != "" && (code, r.value) in Entries
  {
    var r := Find(Entries, code);
    if r.Some? then TableEntriesNonEmpty(code, r.value); r else r
  }

  /** The table as written lists no code twice. */
  lemma AllCodesDistinct()
    ensures forall i, j :: 0 <= i < j < |Entries| ==> Entries[i].0 != Entries[j].0
  {
    forall i, j | 0 <= i < j < |Entries|
      ensures Entries[i].0 != Entries[j].0
    {
      CodesDistinct(i, j);
    }
  }

  /**
   * `Object.keys(MUNICIPALITY_APIS)`: the 40 codes of the table, each once,
   * in the order the table declares them.
   */
  function AvailableMunicipalities(): (codes: seq<string>)
    ensures |codes| == |Entries| == 40
    ensures forall i :: 0 <= i < |codes| ==> codes[i] == Entries[i].0
    ensures forall i, j :: 0 <= i < j < |codes| ==> codes[i] != codes[j]
  {
    AllCodesDistinct();
    Codes(Entries)
  }
}
