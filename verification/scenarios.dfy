/**
 Concrete runs of the scan that pin down its documented behaviour, including
 the edge cases: a listing matched without its brand, the in-progress group
 lost when the cursor runs off the end, and the empty product name.
 */
module Scenarios {
  import opened Text
  import opened Records
  import opened Matcher

  /** A product "Canon" / "EOS_5D" (match form "EOS 5D", see `CanonMatchForm`) and one listing "Canon Canada" /
      "Canon EOS 5D Mark II". The name seek skips the listing, because its title
      starts with the brand and so sorts before "eos 5d", and the cursor runs
      off the end: nothing is written. */
  lemma CanonTitleSortsBeforeName()
    ensures Scan([Product("Canon", "EOS 5D")], [Listing("Canon Canada", "Canon EOS 5D Mark II")])
         == Outcome([], 1, true)
  {
    CanonStrings();
    NameSeekSkipsOnlyListing(Product("Canon", "EOS 5D"), Listing("Canon Canada", "Canon EOS 5D Mark II"));
  }

  /** A single listing whose maker passes the brand test but whose title sorts
      before the product's name is skipped by the name seek, which then runs
      off the end: nothing is written and the scan stops. */
  lemma NameSeekSkipsOnlyListing(p: Product, l: Listing)
    requires !Less(Maker(l), Brand(p)) && Contains(Brand(p), Maker(l))
    requires Less(Title(l), Name(p))
    ensures Scan([p], [l]) == Outcome([], 1, true)
  {
    assert SeekBrand([l], Brand(p), 0) == Some(0);
    assert SeekName([l], Brand(p), Name(p), 0) == None;
  }

  /* How the lower-cased fields of the Canon example compare. */
  lemma CanonStrings()
    ensures var p, l := Product("Canon", "EOS 5D"), Listing("Canon Canada", "Canon EOS 5D Mark II");
      && !Less(Maker(l), Brand(p)) && Contains(Brand(p), Maker(l))
      && Less(Title(l), Name(p))
  {
    var p, l := Product("Canon", "EOS 5D"), Listing("Canon Canada", "Canon EOS 5D Mark II");
    assert l.manufacturer == p.manufacturer + " Canada";
    LowerStrConcat(p.manufacturer, " Canada");
    PrefixNotLess(Brand(p), LowerStr(" Canada"));
    assert Title(l)[0] == 'c' && Name(p)[0] == 'e';
  }

  /** The catalog name "EOS_5D" is matched as "EOS 5D". */
  lemma CanonMatchForm()
    ensures ToMatchForm(Product("Canon", "EOS_5D")) == Product("Canon", "EOS 5D")
  {
    var r := ToMatchForm(Product("Canon", "EOS_5D")).productName;
    ReplacePointwise("EOS_5D", '_', ' ');
    assert r[0] == 'E' && r[1] == 'O' && r[2] == 'S' && r[3] == ' ' && r[4] == '5' && r[5] == 'D';
  }

  /** A product "Agfa" / "110_IS" (match form "110 IS", see `AgfaMatchForm`)
      and one listing "AgfaPhoto" / "110IS": the brand matches as a substring,
      but the run-together model number does not contain "110 is", so nothing
      is written and the scan ends normally. */
  lemma AgfaRunTogetherModelMisses()
    ensures Scan([Product("Agfa", "110 IS")], [Listing("AgfaPhoto", "110IS")])
         == Outcome([], 0, false)
  {
    AgfaStrings();
    RunTogetherNameNotContained();
    NameNotInOnlyTitle(Product("Agfa", "110 IS"), Listing("AgfaPhoto", "110IS"));
  }

  /** A single listing that passes the brand test and stops the name seek, but
      whose title does not contain the product's name, is collected into an
      empty run: nothing is written and the scan ends normally. */
  lemma NameNotInOnlyTitle(p: Product, l: Listing)
    requires !Less(Maker(l), Brand(p)) && Contains(Brand(p), Maker(l))
    requires !Less(Title(l), Name(p)) && !Contains(Name(p), Title(l))
    ensures Scan([p], [l]) == Outcome([], 0, false)
  {
    assert SeekBrand([l], Brand(p), 0) == Some(0);
    assert SeekName([l], Brand(p), Name(p), 0) == Some(0);
    assert Collect([l], Name(p), 0) == Some(0);
    assert Step(p, [l], 0) == Some(Run(0, 0));
    assert ScanFrom([p], [l], 1, 0) == Outcome([], 0, false);
  }

  /* How the lower-cased fields of the Agfa example compare. */
  lemma AgfaStrings()
    ensures var p, l := Product("Agfa", "110 IS"), Listing("AgfaPhoto", "110IS");
      && !Less(Maker(l), Brand(p)) && Contains(Brand(p), Maker(l))
      && !Less(Title(l), Name(p))
  {
    var p, l := Product("Agfa", "110 IS"), Listing("AgfaPhoto", "110IS");
    assert l.manufacturer == p.manufacturer + "Photo";
    LowerStrConcat(p.manufacturer, "Photo");
    PrefixNotLess(Brand(p), LowerStr("Photo"));
    var t, n := Title(l), Name(p);
    assert t[..3] == n[..3] && t[3] == 'i' && n[3] == ' ';
    assert Less(n[3..], t[3..]);
    assert Less(n[2..], t[2..]) by { assert n[2..][1..] == n[3..] && t[2..][1..] == t[3..]; }
    assert Less(n[1..], t[1..]) by { assert n[1..][1..] == n[2..] && t[1..][1..] == t[2..]; }
    assert Less(n, t);
    LessTotal(t, n);
  }

  /** The catalog name "110_IS" is matched as "110 IS". */
  lemma AgfaMatchForm()
    ensures ToMatchForm(Product("Agfa", "110_IS")) == Product("Agfa", "110 IS")
  {
    var r := ToMatchForm(Product("Agfa", "110_IS")).productName;
    ReplacePointwise("110_IS", '_', ' ');
    assert r[0] == '1' && r[1] == '1' && r[2] == '0' && r[3] == ' ' && r[4] == 'I' && r[5] == 'S';
  }

  /* "110 is" is longer than "110is", so it cannot occur in it. */
  lemma RunTogetherNameNotContained()
    ensures !Contains(Name(Product("Agfa", "110 IS")), Title(Listing("AgfaPhoto", "110IS")))
  {
    ContainsNotLonger(Name(Product("Agfa", "110 IS")), Title(Listing("AgfaPhoto", "110IS")));
  }

  /** The listings run out before the last product: the first product's group
      is kept, the second product yields nothing. */
  lemma ListingsExhaustedKeepEarlierGroups()
    ensures Scan([Product("a", "x"), Product("z", "y")], [Listing("a", "x"), Listing("b", "q")])
         == Outcome([Hit(0, 0, 1)], 2, true)
  {
    var ps := [Product("a", "x"), Product("z", "y")];
    var ls := [Listing("a", "x"), Listing("b", "q")];
    assert Title(ls[0]) == "x" && Title(ls[1]) == "q";
    assert Maker(ls[0]) == "a" && Maker(ls[1]) == "b";
    assert Brand(ps[0]) == "a" && Name(ps[0]) == "x" && Brand(ps[1]) == "z";
    assert Step(ps[0], ls, 0) == Some(Run(0, 1));
    assert SeekBrand(ls, "z", 1) == None;
    assert ScanFrom(ps, ls, 1, 1) == Outcome([], 2, true);
  }

  /** When the collected run reaches the last listing the cursor runs off the
      end before the group is saved: the only matching listing is lost. */
  lemma RunToEndLosesGroup()
    ensures Scan([Product("a", "x")], [Listing("a", "x")]) == Outcome([], 1, true)
  {
    var ls := [Listing("a", "x")];
    assert Title(ls[0]) == "x" && Maker(ls[0]) == "a";
    assert Brand(Product("a", "x")) == "a" && Name(Product("a", "x")) == "x";
    assert Collect(ls, "x", 0) == None;
  }

  /** Collection tests only the name: a listing of another manufacturer right
      after the product's brand block is collected when its title contains the
      name. */
  lemma CollectedListingNeedNotHaveBrand()
    ensures var ls := [Listing("b", "a"), Listing("c", "x"), Listing("z", "z")];
      && Scan([Product("b", "x")], ls) == Outcome([Hit(0, 1, 2)], 2, false)
      && !Contains("b", Maker(ls[1]))
  {
    var ps := [Product("b", "x")];
    var ls := [Listing("b", "a"), Listing("c", "x"), Listing("z", "z")];
    assert Maker(ls[0]) == "b" && Maker(ls[1]) == "c" && Maker(ls[2]) == "z";
    assert Title(ls[0]) == "a" && Title(ls[1]) == "x" && Title(ls[2]) == "z";
    assert Brand(ps[0]) == "b" && Name(ps[0]) == "x";
    assert SeekName(ls, "b", "x", 0) == Some(1);
    assert Collect(ls, "x", 1) == Some(2);
    assert Step(ps[0], ls, 0) == Some(Run(1, 2));
  }

  /** Two products of one brand whose names sort next to each other, "5d" and
      "5d ii", and a listing titled "5d ii kit" that belongs to the second: its
      title also contains "5d", so the first product collects it and the second
      product, which comes after it, finds nothing. */
  lemma ShorterNameTakesLongerNamesListing()
    ensures Scan([Product("c", "5d"), Product("c", "5d ii")], [Listing("c", "5d ii kit"), Listing("z", "z")])
         == Outcome([Hit(0, 0, 1)], 1, false)
  {
    var ps := [Product("c", "5d"), Product("c", "5d ii")];
    var ls := [Listing("c", "5d ii kit"), Listing("z", "z")];
    LowerCaseKept("c");
    LowerCaseKept("z");
    LowerCaseKept("5d");
    LowerCaseKept("5d ii kit");
    assert "5d" <= "5d ii kit";
    PrefixNotLess("5d", " ii kit");
    assert !Contains("5d", "z") by { ContainsNotLonger("5d", "z"); }
    assert SeekName(ls, "c", "5d", 0) == Some(0);
    assert Collect(ls, "5d", 0) == Some(1);
    assert Step(ps[0], ls, 0) == Some(Run(0, 1));
    assert SeekBrand(ls, "c", 1) == Some(1);
    assert Step(ps[1], ls, 1) == Some(Run(1, 1));
  }

  /* Lower-casing a string without capitals changes nothing. */
  lemma LowerCaseKept(s: string)
    requires IsLower(s)
    ensures LowerStr(s) == s
  {
  }

  /** A catalog name with a space of its own, "5D II", is written out as
      "5D_II". */
  lemma SpacedNameComesBackUnderscored()
    ensures OutputName(ToMatchForm(Product("Canon", "5D II"))) == "5D_II"
  {
  }

  /** An empty product name is contained in every title, so once the brand
      seek stops on a listing that passes the brand test (here the first one),
      the name seek stops at once and collection runs to the end of the
      listings: the whole scan stops with nothing written. */
  lemma EmptyNameSwallowsTheRest(ls: seq<Listing>, b: string)
    requires |ls| > 0
    requires !Less(Maker(ls[0]), LowerStr(b)) && Contains(LowerStr(b), Maker(ls[0]))
    ensures Scan([Product(b, "")], ls) == Outcome([], |ls|, true)
  {
    var p := Product(b, "");
    assert SeekBrand(ls, Brand(p), 0) == Some(0);
    assert Name(p) == "";
    var s := SeekName(ls, Brand(p), "", 0);
    if s.Some? {
      assert Collect(ls, "", s.value) == None;
    }
  }
}
