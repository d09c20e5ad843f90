/** The catalog tables of elkoa/utils/dicts.py: which files each Elk task
    writes, how they are read, the tab and axis labels shown for them, and
    the conversions offered for each field, extended at import time by the
    converters every tensor field has. */
module Dicts {
  import opened Py
  import Convert

  // ---------------------------------------------------------------------
  // Ordered dictionaries

  /** A Python dict with string keys: its items in insertion order. */
  type ODict<V> = seq<(string, V)>

  /** `list(d.keys())`. */
  function KeysOf<V>(d: ODict<V>): (ks: seq<string>)
    ensures |ks| == |d| && forall i | 0 <= i < |d| :: ks[i] == d[i].0
  {
    seq(|d|, i requires 0 <= i < |d| => d[i].0)
  }

  /** No key occurs twice, as in every dict. */
  predicate UniqueKeys<V>(d: ODict<V>)
  {
    forall i, j | 0 <= i < j < |d| :: d[i].0 != d[j].0
  }

  /** `d.get(k)`: the value of the last item with key k. */
  function Lookup<V>(d: ODict<V>, k: string): (r: Option<V>)
    ensures r.None? <==> k !in KeysOf(d)
  {
    if d == [] then None
    else if d[|d| - 1].0 == k then Some(d[|d| - 1].1)
    else
      assert KeysOf(d) == KeysOf(d[..|d| - 1]) + [d[|d| - 1].0];
      Lookup(d[..|d| - 1], k)
  }

  /** `d[k] = v`: an existing key keeps its place, a new one goes last. */
  function Assign<V>(d: ODict<V>, k: string, v: V): (r: ODict<V>)
    ensures KeysOf(r) == if k in KeysOf(d) then KeysOf(d) else KeysOf(d) + [k]
  {
    if k in KeysOf(d) then seq(|d|, i requires 0 <= i < |d| => if d[i].0 == k then (k, v) else d[i])
    else d + [(k, v)]
  }

  /** After `d[k] = v`, k maps to v and every other key to what it did. */
  lemma {:induction false} AssignLookup<V>(d: ODict<V>, k: string, v: V, key: string)
    ensures Lookup(Assign(d, k, v), key) == if key == k then Some(v) else Lookup(d, key)
    decreases |d|
  {
    if k in KeysOf(d) && d != [] {
      var init := d[..|d| - 1];
      var r := Assign(d, k, v);
      if k in KeysOf(init) {
        AssignLookup(init, k, v, key);
        assert r[..|r| - 1] == Assign(init, k, v);
      } else {
        assert d[|d| - 1].0 == k;
        assert r[..|r| - 1] == init by {
          forall i | 0 <= i < |init|
            ensures r[i] == init[i]
          {
            assert KeysOf(init)[i] == init[i].0;
          }
        }
      }
    } else if k !in KeysOf(d) {
      var r := Assign(d, k, v);
      assert r[..|r| - 1] == d;
    }
  }

  /** `d.update(items)`: the items assigned one after another. */
  function UpdateAll<V>(d: ODict<V>, items: ODict<V>): ODict<V>
    decreases |items|
  {
    if items == [] then d else UpdateAll(Assign(d, items[0].0, items[0].1), items[1..])
  }

  /** After `d.update(items)`, the keys of items map to their values and every
      other key to what it did. */
  lemma {:induction false} UpdateAllLookup<V>(d: ODict<V>, items: ODict<V>, key: string)
    requires UniqueKeys(items)
    ensures Lookup(UpdateAll(d, items), key) == if key in KeysOf(items) then Lookup(items, key) else Lookup(d, key)
    decreases |items|
  {
    if items != [] {
      var k, v, rest := items[0].0, items[0].1, items[1..];
      var d' := Assign(d, k, v);
      assert UpdateAll(d, items) == UpdateAll(d', rest);
      assert UniqueKeys(rest);
      UpdateAllLookup(d', rest, key);
      AssignLookup(d, k, v, key);
      LookupFront(items, key);
      KeysFront(items, key);
    }
  }

  /** The keys of a dict with unique keys are its first key and, distinct
      from it, the keys of the rest. */
  lemma KeysFront<V>(items: ODict<V>, key: string)
    requires items != [] && UniqueKeys(items)
    ensures key in KeysOf(items) <==> key == items[0].0 || key in KeysOf(items[1..])
    ensures key == items[0].0 ==> key !in KeysOf(items[1..])
  {
    assert KeysOf(items) == [items[0].0] + KeysOf(items[1..]);
    if key == items[0].0 {
      forall i | 0 <= i < |items| - 1
        ensures KeysOf(items[1..])[i] != key
      {
        assert items[1..][i] == items[i + 1];
      }
    }
  }

  /** The value of a key in a dict with unique keys, found from the front. */
  lemma {:induction false} LookupFront<V>(items: ODict<V>, key: string)
    requires items != [] && UniqueKeys(items)
    ensures Lookup(items, key) == if items[0].0 == key then Some(items[0].1) else Lookup(items[1..], key)
    decreases |items|
  {
    var last := |items| - 1;
    if last > 0 {
      var init := items[..last];
      if items[last].0 != key {
        LookupFront(init, key);
        assert init[1..] == items[1..][..last - 1];
      }
    }
  }

  /** The keys of items, none of them among the keys of d. */
  predicate Fresh<V>(d: ODict<V>, items: ODict<V>)
  {
    forall i | 0 <= i < |items| :: items[i].0 !in KeysOf(d)
  }

  lemma FreshTail<V>(d: ODict<V>, items: ODict<V>)
    requires items != [] && Fresh(d, items) && UniqueKeys(items)
    ensures Fresh(Assign(d, items[0].0, items[0].1), items[1..]) && UniqueKeys(items[1..])
  {
    var k := items[0].0;
    var rest := items[1..];
    assert KeysOf(Assign(d, k, items[0].1)) == KeysOf(d) + [k];
    forall i | 0 <= i < |rest|
      ensures rest[i].0 !in KeysOf(d) + [k]
    {
      assert rest[i] == items[i + 1];
    }
  }

  /** `d.update(items)` with keys d does not have appends the items. */
  lemma {:induction false} UpdateAllFresh<V>(d: ODict<V>, items: ODict<V>)
    requires Fresh(d, items) && UniqueKeys(items)
    ensures UpdateAll(d, items) == d + items
    decreases |items|
  {
    if items != [] {
      var d' := Assign(d, items[0].0, items[0].1);
      assert UpdateAll(d, items) == UpdateAll(d', items[1..]);
      FreshTail(d, items);
      UpdateAllFresh(d', items[1..]);
      AppendFront(d, items);
    }
  }

  /** Assigning a fresh key appends it, so assigning each fresh item in turn
      appends the items. */
  lemma AppendFront<V>(d: ODict<V>, items: ODict<V>)
    requires items != [] && items[0].0 !in KeysOf(d)
    ensures Assign(d, items[0].0, items[0].1) + items[1..] == d + items
  {
    assert Assign(d, items[0].0, items[0].1) == d + [items[0]];
    assert (d + [items[0]]) + items[1..] == d + items;
  }

  // ---------------------------------------------------------------------
  // Substrings

  /** sep occurs in s at index i. */
  predicate OccursAt(s: string, sep: string, i: nat)
  {
    i + |sep| <= |s| && s[i..i + |sep|] == sep
  }

  lemma OccursShift(s: string, sep: string, i: nat)
    requires |s| >= 1 && i >= 1
    ensures OccursAt(s, sep, i) <==> OccursAt(s[1..], sep, i - 1)
  {
    if i + |sep| <= |s| {
      assert s[i..i + |sep|] == s[1..][i - 1..i - 1 + |sep|];
    }
  }

  /** `s.find(sep)`: the first index where sep occurs in s, or -1. */
  function Find(s: string, sep: string): (r: int)
    requires |sep| >= 1
    ensures r >= -1 && (r >= 0 ==> OccursAt(s, sep, r))
    ensures forall i: nat | r < 0 || i < r :: !OccursAt(s, sep, i)
    decreases |s|
  {
    if |s| < |sep| then -1
    else if s[..|sep|] == sep then 0
    else
      var j := Find(s[1..], sep);
      assert forall i: nat | 1 <= i :: OccursAt(s, sep, i) <==> OccursAt(s[1..], sep, i - 1) by {
        forall i: nat | 1 <= i
          ensures OccursAt(s, sep, i) <==> OccursAt(s[1..], sep, i - 1)
        {
          OccursShift(s, sep, i);
        }
      }
      if j < 0 then -1 else j + 1
  }

  /** After a prefix without the first character of sep, the first
      occurrence of sep is the one right after the prefix. */
  lemma FindAfter(prefix: string, sep: string, rest: string)
    requires |sep| >= 1 && sep[0] !in prefix
    ensures Find(prefix + sep + rest, sep) == |prefix|
  {
    var s := prefix + sep + rest;
    assert s[|prefix|..|prefix| + |sep|] == sep;
    assert OccursAt(s, sep, |prefix|);
    forall i: nat | i < |prefix|
      ensures !OccursAt(s, sep, i)
    {
      assert s[i] == prefix[i] && s[i] != sep[0];
      if i + |sep| <= |s| {
        assert s[i..i + |sep|][0] == s[i];
      }
    }
  }

  /** `sep in s`. */
  predicate Contains(s: string, sep: string)
    requires |sep| >= 1
  {
    Find(s, sep) >= 0
  }

  /** `s.split(sep)[0]`: s up to the first occurrence of sep, all of s without one. */
  function Before(s: string, sep: string): (r: string)
    requires |sep| >= 1
    ensures Contains(s, sep) ==> |r| == Find(s, sep) && r == s[..|r|] && OccursAt(s, sep, |r|)
    ensures !Contains(s, sep) ==> r == s
  {
    var i := Find(s, sep);
    if i >= 0 then s[..i] else s
  }

  // ---------------------------------------------------------------------
  // Tables keyed by Elk task number

  /** The Elk tasks the analyzer reads; every table has one entry per task. */
  const Tasks: set<string> := {"121", "187", "320/v4", "320/v5", "330"}

  /** `FILE_NAME_DICT`: the output files of each task. */
  const FileNameDict: map<string, seq<string>> := map[
    "121" := ["EPSILON_ij.OUT", "SIGMA_ij.OUT"],
    "187" := ["EPSILON_BSE_ij.OUT"],
    "320/v4" := ["EPSILON_TDDFT.OUT", "EELS_TDDFT.OUT"],
    "320/v5" := ["EPSILON_TDDFT_ij.OUT", "EPSINV_TDDFT_ij.OUT"],
    "330" := ["CHI0_00.OUT", "CHI_00.OUT", "CHI0_T.OUT", "CHI_T.OUT", "CHI0_ij.OUT", "CHI_ij.OUT"]
  ]

  /** `ADDITIONAL_DATA`: one initially empty list of extra data sets per file. */
  const AdditionalData: map<string, seq<seq<string>>> := map[
    "121" := [[], []],
    "187" := [[]],
    "320/v4" := [[], []],
    "320/v5" := [[], []],
    "330" := [[], [], [], [], [], []]
  ]

  /** The two readers of elkoa/utils/io.py a file can be read with. */
  datatype Reader = TensorReader | ScalarReader

  /** `READER_DICT`: the reader of each file. */
  const ReaderDict: map<string, seq<Reader>> := map[
    "121" := [TensorReader, TensorReader],
    "187" := [TensorReader],
    "320/v4" := [ScalarReader, ScalarReader],
    "320/v5" := [TensorReader, TensorReader],
    "330" := [ScalarReader, ScalarReader, ScalarReader, ScalarReader, TensorReader, TensorReader]
  ]

  /** `TAB_NAME_DICT`: the tab each file is shown in. */
  const TabNameDict: map<string, seq<string>> := map[
    "121" := ["epsTen", "sigTen"],
    "187" := ["epsTen"],
    "320/v4" := ["epsL", "EELS"],
    "320/v5" := ["epsTen", "epsInvTen"],
    "330" := ["\U{03F1}-chi0", "\U{03F1}-chi", "m-chi0T", "m-chiT", "m-chi0", "m-chi"]
  ]

  /** `LABEL_DICT`: the axis label of each tab. */
  const LabelDict: map<string, string> := map[
    "sigTen" := "$\\sigma_{ij}(\\omega)$ [a.u.]",
    "epsTen" := "$\\varepsilon_{ij}(\\omega)$ [a.u.]",
    "epsInvTen" := "$\\varepsilon^{-1}_{ij}(\\omega)$ [a.u.]",
    "sigL" := "$\\sigma_\\mathrm{L}(\\omega)$ [a.u.]",
    "epsL" := "$\\varepsilon_\\mathrm{L}(\\omega)$ [a.u.]",
    "EELS" := "EELS$(\\omega)$ [a.u.]",
    "\U{03F1}-chi0" := "$\\chi_\\rho^0(\\omega)$ [a.u.]",
    "\U{03F1}-chi" := "$\\chi_\\rho(\\omega)$ [a.u.]",
    "m-chi0T" := "$\\chi_\\mathrm{L}^0(\\omega)$ [a.u.]",
    "m-chiT" := "$\\chi_\\mathrm{L}(\\omega)$ [a.u.]",
    "m-chi0" := "$\\chi_m^0(\\omega)$ [a.u.]",
    "m-chi" := "$\\chi_m(\\omega)$ [a.u.]",
    "refInd" := "$n_{1/2}(\\omega)$ [a.u.]",
    "epsMicro" := "$\\varepsilon_{ij}(\\omega)$ [a.u.]"
  ]

  /** The four task tables agree: the same tasks, and per task one file
      name, one extra-data list, one reader and one tab name per file. */
  lemma TablesConsistent()
    ensures FileNameDict.Keys == Tasks && AdditionalData.Keys == Tasks
    ensures ReaderDict.Keys == Tasks && TabNameDict.Keys == Tasks
    ensures forall t | t in Tasks ::
              && |AdditionalData[t]| == |FileNameDict[t]|
              && |ReaderDict[t]| == |FileNameDict[t]|
              && |TabNameDict[t]| == |FileNameDict[t]|
  {
  }

  /** Every tab a task file is shown in has an axis label. */
  lemma TabsLabelled()
    ensures forall t, i | t in Tasks && 0 <= i < |TabNameDict[t]| :: TabNameDict[t][i] in LabelDict
  {
  }

  // ---------------------------------------------------------------------
  // Conversions

  /** A conversion offered in the GUI: the tab of its result, the name of the
      converter function, and the options that restrict its input widgets. */
  datatype ConversionItem = ConversionItem(tabName: string, functionName: string, opts: seq<string>)

  /** A field's entry: its display name and its conversions by display name. */
  datatype FieldConversions = FieldConversions(name: string, converters: ODict<ConversionItem>)

  /** `CONVERSION_DICT` as written, before the generic converters are added. */
  const ConversionLiterals: ODict<FieldConversions> := [
    ("epsTen", FieldConversions("dielectric tensor", [
      ("conductivity tensor", ConversionItem("sigTen", "eps_to_sig", ["noq"])),
      ("microscopic dielectric tensor", ConversionItem("epsMicro", "eps_to_epsMicro", [])),
      ("refractive indices", ConversionItem("refInd", "eps_to_refInd", ["noreg", "nzq", "vector"]))])),
    ("sigTen", FieldConversions("conductivity tensor", [
      ("dielectric tensor", ConversionItem("epsTen", "sig_to_eps", ["creg", "noq"]))]))
  ]

  /** The three converters every tensor field gets, for a field named
      basename + "Ten". */
  function Generic(basename: string): (items: ODict<ConversionItem>)
    ensures UniqueKeys(items) && KeysOf(items) == GenericNames
  {
    [("longitudinal part", ConversionItem(basename + "L", "long", ["noreg", "nzq"])),
     ("cartesian to fractional basis", ConversionItem(basename + "Ten", "cartToFrac", ["noreg", "noq"])),
     ("fractional to cartesian basis", ConversionItem(basename + "Ten", "fracToCart", ["noreg", "noq"]))]
  }

  const GenericNames: seq<string> := ["longitudinal part", "cartesian to fractional basis", "fractional to cartesian basis"]

  /** One field's entry after the loop: a field whose key contains "Ten"
      gets the generic converters of its prefix. */
  function AugmentedEntry(field: string, e: FieldConversions): FieldConversions
  {
    if Contains(field, "Ten") then e.(converters := UpdateAll(e.converters, Generic(Before(field, "Ten"))))
    else e
  }

  /** The catalog after the import-time loop. */
  function Augmented(d: ODict<FieldConversions>): (r: ODict<FieldConversions>)
    ensures KeysOf(r) == KeysOf(d)
  {
    seq(|d|, i requires 0 <= i < |d| => (d[i].0, AugmentedEntry(d[i].0, d[i].1)))
  }

  /** The loop over the fields of `CONVERSION_DICT`, updating each tensor
      field's converters in place. */
  method AugmentConversions(d: ODict<FieldConversions>) returns (r: ODict<FieldConversions>)
    ensures r == Augmented(d)
  {
    r := d;
    for i := 0 to |d|
      invariant |r| == |d|
      invariant forall k | 0 <= k < i :: r[k] == (d[k].0, AugmentedEntry(d[k].0, d[k].1))
      invariant forall k | i <= k < |d| :: r[k] == d[k]
    {
      var field := r[i].0;
      if Find(field, "Ten") >= 0 {
        var basename := Before(field, "Ten");
        var convDict := r[i].1.converters;
        convDict := UpdateAll(convDict, Generic(basename));
        r := r[i := (field, r[i].1.(converters := convDict))];
      }
    }
  }

  /** A tensor field gets exactly the three generic converters, named after
      its prefix before "Ten"; its other converters keep their values, and a
      field without "Ten" is left as it was. */
  lemma AugmentedLookup(field: string, e: FieldConversions, name: string)
    ensures Contains(field, "Ten") ==>
              Lookup(AugmentedEntry(field, e).converters, name)
              == if name in GenericNames then Lookup(Generic(Before(field, "Ten")), name) else Lookup(e.converters, name)
    ensures !Contains(field, "Ten") ==> AugmentedEntry(field, e) == e
    ensures AugmentedEntry(field, e).name == e.name
  {
    if Contains(field, "Ten") {
      UpdateAllLookup(e.converters, Generic(Before(field, "Ten")), name);
    }
  }

  /** A tensor field without generic converters of its own keeps its
      converters in order and gains the three generic ones after them. */
  lemma AugmentedAppends(field: string, e: FieldConversions)
    requires Contains(field, "Ten")
    requires forall i | 0 <= i < |GenericNames| :: GenericNames[i] !in KeysOf(e.converters)
    ensures AugmentedEntry(field, e).converters == e.converters + Generic(Before(field, "Ten"))
  {
    UpdateAllFresh(e.converters, Generic(Before(field, "Ten")));
  }

  /** A field named prefix + "Ten" (the prefix without a "T") whose
      converters have none of the generic names gains the generic converters
      of that prefix after its own. */
  lemma TensorFieldAugmented(prefix: string, e: FieldConversions)
    requires 'T' !in prefix
    requires forall i | 0 <= i < |GenericNames| :: GenericNames[i] !in KeysOf(e.converters)
    ensures AugmentedEntry(prefix + "Ten", e).converters == e.converters + Generic(prefix)
  {
    FindAfter(prefix, "Ten", "");
    assert prefix + "Ten" + "" == prefix + "Ten";
    AugmentedAppends(prefix + "Ten", e);
  }

  /** `CONVERSION_DICT` once the module is imported. */
  const ConversionDict: ODict<FieldConversions> := [
    ("epsTen", FieldConversions("dielectric tensor", [
      ("conductivity tensor", ConversionItem("sigTen", "eps_to_sig", ["noq"])),
      ("microscopic dielectric tensor", ConversionItem("epsMicro", "eps_to_epsMicro", [])),
      ("refractive indices", ConversionItem("refInd", "eps_to_refInd", ["noreg", "nzq", "vector"])),
      ("longitudinal part", ConversionItem("epsL", "long", ["noreg", "nzq"])),
      ("cartesian to fractional basis", ConversionItem("epsTen", "cartToFrac", ["noreg", "noq"])),
      ("fractional to cartesian basis", ConversionItem("epsTen", "fracToCart", ["noreg", "noq"]))])),
    ("sigTen", FieldConversions("conductivity tensor", [
      ("dielectric tensor", ConversionItem("epsTen", "sig_to_eps", ["creg", "noq"])),
      ("longitudinal part", ConversionItem("sigL", "long", ["noreg", "nzq"])),
      ("cartesian to fractional basis", ConversionItem("sigTen", "cartToFrac", ["noreg", "noq"])),
      ("fractional to cartesian basis", ConversionItem("sigTen", "fracToCart", ["noreg", "noq"]))]))
  ]

  lemma EpsilonFresh()
    ensures forall i | 0 <= i < |GenericNames| :: GenericNames[i] !in KeysOf(ConversionLiterals[0].1.converters)
  {
    assert KeysOf(ConversionLiterals[0].1.converters)
           == ["conductivity tensor", "microscopic dielectric tensor", "refractive indices"];
  }

  lemma EpsilonAppended()
    ensures ConversionLiterals[0].1.converters + Generic("eps") == ConversionDict[0].1.converters
  {
    assert "eps" + "L" == "epsL" && "eps" + "Ten" == "epsTen";
  }

  lemma SigmaFresh()
    ensures forall i | 0 <= i < |GenericNames| :: GenericNames[i] !in KeysOf(ConversionLiterals[1].1.converters)
  {
    assert KeysOf(ConversionLiterals[1].1.converters) == ["dielectric tensor"];
  }

  lemma SigmaAppended()
    ensures ConversionLiterals[1].1.converters + Generic("sig") == ConversionDict[1].1.converters
  {
    assert "sig" + "L" == "sigL" && "sig" + "Ten" == "sigTen";
  }

  /** The dielectric tensor keeps its three converters and gets the generic
      ones of prefix "eps" after them. */
  lemma EpsilonConversions()
    ensures AugmentedEntry("epsTen", ConversionLiterals[0].1).converters == ConversionDict[0].1.converters
  {
    EpsilonFresh();
    TensorFieldAugmented("eps", ConversionLiterals[0].1);
    EpsilonAppended();
    assert "eps" + "Ten" == "epsTen";
  }

  /** The conductivity tensor keeps its converter and gets the generic ones
      of prefix "sig" after it. */
  lemma SigmaConversions()
    ensures AugmentedEntry("sigTen", ConversionLiterals[1].1).converters == ConversionDict[1].1.converters
  {
    SigmaFresh();
    TensorFieldAugmented("sig", ConversionLiterals[1].1);
    SigmaAppended();
    assert "sig" + "Ten" == "sigTen";
  }

  /** The import-time loop turns the catalog as written into the catalog above. */
  lemma CatalogAugmented()
    ensures Augmented(ConversionLiterals) == ConversionDict
  {
    EpsilonConversions();
    SigmaConversions();
  }

  /** The catalog's contents: six conversions for the dielectric tensor and
      four for the conductivity tensor, each labelled; "nzq" only on the
      refractive indices and the longitudinal part, "creg" only on the
      conversion from conductivity to dielectric tensor; and no converter
      function name is one the converter object answers to. */
  lemma CatalogFacts()
    ensures KeysOf(ConversionDict) == ["epsTen", "sigTen"]
    ensures |ConversionDict[0].1.converters| == 6 && |ConversionDict[1].1.converters| == 4
    ensures forall f, c | 0 <= f < |ConversionDict| && 0 <= c < |ConversionDict[f].1.converters| ::
              && ConversionDict[f].1.converters[c].1.tabName in LabelDict
              && ("nzq" in ConversionDict[f].1.converters[c].1.opts
                  <==> ConversionDict[f].1.converters[c].0 == "refractive indices"
                       || ConversionDict[f].1.converters[c].0 == "longitudinal part")
              && ("creg" in ConversionDict[f].1.converters[c].1.opts
                  <==> ConversionDict[f].0 == "sigTen" && ConversionDict[f].1.converters[c].0 == "dielectric tensor")
              && Convert.GetConverter(ConversionDict[f].1.converters[c].1.functionName) == Raise(AttributeError)
  {
  }
}
