/**
 The sort-and-merge matcher. The products and the listings are walked side by
 side with two cursors: for each product in turn the listing cursor is moved past
 listings of earlier brands (brand seek), the brand is checked against the listing
 it stopped on (brand test), listings of that brand whose titles sort before the
 product name are skipped (name seek), and then the contiguous run of listings
 whose titles contain the name is collected. A non-empty run becomes an output
 group. Whenever the cursor would be used at the end of the listings, the whole
 scan stops and the groups emitted so far are the result; the run of the product
 being examined at that moment is discarded with it.

 The scan is given twice: as the phase functions `SeekBrand`, `SeekName`,
 `Collect`, `Step` and `ScanFrom`, which serve as the reference, and as the
 method `MergeMatch`, which moves two cursors exactly as the original loop does
 and is proved to agree with the reference.
 */
module Matcher {
  import opened Text
  import opened Records

  datatype Option<T> = None | Some(value: T)

  /** The listings `[first, end)` one product collected; `end` is also where the
      listing cursor stands once the product is done. */
  datatype Run = Run(first: nat, end: nat)

  /** An emitted group in index form: product `product` received the listings
      `[first, end)`. */
  datatype Hit = Hit(product: nat, first: nat, end: nat)

  /** What a scan produced: its groups in index form, where the listing cursor
      stopped, and whether it stopped because the cursor ran off the end. */
  datatype Outcome = Outcome(hits: seq<Hit>, cursor: nat, exhausted: bool)

  /** The lower-cased fields the scan compares. */
  function Brand(p: Product): string { LowerStr(p.manufacturer) }
  function Name(p: Product): string { LowerStr(p.productName) }
  function Maker(l: Listing): string { LowerStr(l.manufacturer) }
  function Title(l: Listing): string { LowerStr(l.title) }

  /* ---------------------------------------------------------------------- */
  /* The phases of one product                                              */
  /* ---------------------------------------------------------------------- */

  /** Brand seek: the first listing at or after `lx` whose manufacturer does not
      sort before `brand`; `None` when every remaining listing's does, i.e. the
      cursor runs off the end. */
  function SeekBrand(ls: seq<Listing>, brand: string, lx: nat): (r: Option<nat>)
    decreases |ls| - lx
    ensures r.Some? ==> lx <= r.value < |ls| && !Less(Maker(ls[r.value]), brand)
    ensures forall j :: lx <= j < (if r.Some? then r.value else |ls|) ==>
      Less(Maker(ls[j]), brand)
  {
    if lx >= |ls| then None
    else if Less(Maker(ls[lx]), brand) then SeekBrand(ls, brand, lx + 1)
    else Some(lx)
  }

  /** The listing is of the product's brand and its title sorts before the name. */
  predicate BeforeName(l: Listing, brand: string, name: string)
  {
    Contains(brand, Maker(l)) && Less(Title(l), name)
  }

  /** Name seek: the first listing at or after `lx` that is not of `brand` or
      whose title does not sort before `name`; `None` when the cursor runs off
      the end. */
  function SeekName(ls: seq<Listing>, brand: string, name: string, lx: nat): (r: Option<nat>)
    decreases |ls| - lx
    ensures r.Some? ==> lx <= r.value < |ls| && !BeforeName(ls[r.value], brand, name)
    ensures forall j :: lx <= j < (if r.Some? then r.value else |ls|) ==>
      BeforeName(ls[j], brand, name)
  {
    if lx >= |ls| then None
    else if BeforeName(ls[lx], brand, name) then SeekName(ls, brand, name, lx + 1)
    else Some(lx)
  }

  /** Collection: the end of the run of listings from `lx` whose titles contain
      `name`, which is the first listing whose title does not; `None` when the
      run reaches the end of the listings. */
  function Collect(ls: seq<Listing>, name: string, lx: nat): (r: Option<nat>)
    decreases |ls| - lx
    ensures r.Some? ==> lx <= r.value < |ls| && !Contains(name, Title(ls[r.value]))
    ensures forall j :: lx <= j < (if r.Some? then r.value else |ls|) ==>
      Contains(name, Title(ls[j]))
  {
    if lx >= |ls| then None
    else if Contains(name, Title(ls[lx])) then Collect(ls, name, lx + 1)
    else Some(lx)
  }

  /** One product: brand seek, brand test, name seek and collection. `None`
      means a phase ran the cursor off the end. When the brand test fails the run
      is empty and the cursor stays where the brand seek left it. */
  function Step(p: Product, ls: seq<Listing>, lx: nat): (r: Option<Run>)
    ensures r.Some? ==> lx <= r.value.first <= r.value.end < |ls|
  {
    match SeekBrand(ls, Brand(p), lx)
    case None => None
    case Some(b) =>
      if !Contains(Brand(p), Maker(ls[b])) then Some(Run(b, b))
      else
        match SeekName(ls, Brand(p), Name(p), b)
        case None => None
        case Some(s) =>
          match Collect(ls, Name(p), s)
          case None => None
          case Some(e) => Some(Run(s, e))
  }

  /* ---------------------------------------------------------------------- */
  /* The whole scan                                                         */
  /* ---------------------------------------------------------------------- */

  /** Consecutive hits belong to strictly later products and to later,
      non-overlapping stretches of the listings. */
  ghost predicate HitsOrdered(hits: seq<Hit>)
  {
    forall i, j :: 0 <= i < j < |hits| ==>
      hits[i].product < hits[j].product && hits[i].end <= hits[j].first
  }

  /** Every listing of every hit has the hit's product name (lower-cased, in
      match form) in its lower-cased title. */
  ghost predicate HitsMatchName(ps: seq<Product>, ls: seq<Listing>, hits: seq<Hit>)
  {
    forall i :: 0 <= i < |hits| && hits[i].product < |ps| && hits[i].end <= |ls| ==>
      forall j :: hits[i].first <= j < hits[i].end ==>
        Contains(Name(ps[hits[i].product]), Title(ls[j]))
  }

  function Prepend(hits: seq<Hit>, o: Outcome): Outcome
  {
    Outcome(hits + o.hits, o.cursor, o.exhausted)
  }

  /** Every listing a product collects has the product's name (lower-cased, in
      match form) in its lower-cased title; when the brand test fails nothing is
      collected. */
  lemma StepMatchesName(p: Product, ls: seq<Listing>, lx: nat)
    ensures Step(p, ls, lx).Some? ==>
      forall j :: Step(p, ls, lx).value.first <= j < Step(p, ls, lx).value.end ==>
        Contains(Name(p), Title(ls[j]))
    ensures (var b := SeekBrand(ls, Brand(p), lx);
      b.Some? && !Contains(Brand(p), Maker(ls[b.value])) ==> Step(p, ls, lx) == Some(Run(b.value, b.value)))
  {
  }

  /** The scan of products `px..` with the listing cursor at `lx`: the reference
      the cursor method is proved against. */
  function ScanFrom(ps: seq<Product>, ls: seq<Listing>, px: nat, lx: nat): Outcome
    decreases |ps| - px
  {
    if px >= |ps| then Outcome([], lx, false)
    else
      match Step(ps[px], ls, lx)
      case None => Outcome([], |ls|, true)
      case Some(run) =>
        var rest := ScanFrom(ps, ls, px + 1, run.end);
        if run.first < run.end then Prepend([Hit(px, run.first, run.end)], rest) else rest
  }

  /** The whole scan, from the first product and the first listing. */
  function Scan(ps: seq<Product>, ls: seq<Listing>): Outcome
  {
    ScanFrom(ps, ls, 0, 0)
  }

  /** Hits that index into `ps` and `ls`. */
  ghost predicate HitsInRange(ps: seq<Product>, ls: seq<Listing>, hits: seq<Hit>)
  {
    forall i :: 0 <= i < |hits| ==>
      hits[i].product < |ps| && hits[i].first <= hits[i].end <= |ls|
  }

  /** The output records of a list of hits. */
  function Render(ps: seq<Product>, ls: seq<Listing>, hits: seq<Hit>): seq<MatchGroup>
    requires HitsInRange(ps, ls, hits)
  {
    seq(|hits|, i requires 0 <= i < |hits| =>
      MatchGroup(OutputName(ps[hits[i].product]), ls[hits[i].first..hits[i].end]))
  }

  /** The number of listings across all groups. */
  function GroupSizes(groups: seq<MatchGroup>): nat
  {
    if |groups| == 0 then 0 else |groups[0].listings| + GroupSizes(groups[1..])
  }

  /** The number of listing indices across all hits. */
  function Listed(hits: seq<Hit>): int
  {
    if |hits| == 0 then 0 else (hits[0].end - hits[0].first) + Listed(hits[1..])
  }

  /** The listing cursor never moves back; the scan stops early only with the
      cursor at the end of the listings and a product still to do; there is at
      most one hit per product; and every hit is a non-empty stretch of the
      listings between the starting cursor and the final one. */
  lemma {:induction false} ScanFromBounds(ps: seq<Product>, ls: seq<Listing>, px: nat, lx: nat)
    ensures var r := ScanFrom(ps, ls, px, lx);
      && (lx <= |ls| ==> lx <= r.cursor <= |ls|)
      && (r.exhausted ==> px < |ps| && r.cursor == |ls|)
      && (px <= |ps| ==> |r.hits| <= |ps| - px)
      && (forall i :: 0 <= i < |r.hits| ==>
            px <= r.hits[i].product < |ps| && lx <= r.hits[i].first < r.hits[i].end <= r.cursor)
    decreases |ps| - px
  {
    if px < |ps| {
      match Step(ps[px], ls, lx)
      case None =>
      case Some(run) =>
        var rest := ScanFrom(ps, ls, px + 1, run.end);
        ScanFromBounds(ps, ls, px + 1, run.end);
        if run.first < run.end {
          var hits := [Hit(px, run.first, run.end)] + rest.hits;
          assert ScanFrom(ps, ls, px, lx).hits == hits;
          assert forall i :: 0 < i < |hits| ==> hits[i] == rest.hits[i - 1];
        }
    }
  }

  /** Hits come in product order over disjoint, increasing stretches of the
      listings, so no listing is attributed twice. */
  lemma {:induction false} ScanFromOrdered(ps: seq<Product>, ls: seq<Listing>, px: nat, lx: nat)
    ensures HitsOrdered(ScanFrom(ps, ls, px, lx).hits)
    decreases |ps| - px
  {
    if px < |ps| {
      match Step(ps[px], ls, lx)
      case None =>
      case Some(run) =>
        var rest := ScanFrom(ps, ls, px + 1, run.end);
        ScanFromOrdered(ps, ls, px + 1, run.end);
        if run.first < run.end {
          ScanFromBounds(ps, ls, px + 1, run.end);
          var hits := [Hit(px, run.first, run.end)] + rest.hits;
          assert ScanFrom(ps, ls, px, lx).hits == hits;
          assert forall i :: 0 < i < |hits| ==> hits[i] == rest.hits[i - 1];
        }
    }
  }

  /** Every collected title contains the product's name. */
  lemma {:induction false} ScanFromMatchesName(ps: seq<Product>, ls: seq<Listing>, px: nat, lx: nat)
    ensures HitsMatchName(ps, ls, ScanFrom(ps, ls, px, lx).hits)
    decreases |ps| - px
  {
    if px < |ps| {
      StepMatchesName(ps[px], ls, lx);
      match Step(ps[px], ls, lx)
      case None =>
      case Some(run) =>
        var rest := ScanFrom(ps, ls, px + 1, run.end);
        ScanFromMatchesName(ps, ls, px + 1, run.end);
        if run.first < run.end {
          var hits := [Hit(px, run.first, run.end)] + rest.hits;
          assert ScanFrom(ps, ls, px, lx).hits == hits;
          assert forall i :: 0 < i < |hits| ==> hits[i] == rest.hits[i - 1];
        }
    }
  }

  /* ---------------------------------------------------------------------- */
  /* The two-cursor loop                                                    */
  /* ---------------------------------------------------------------------- */

  /** The brand-seek loop: moves the cursor past listings whose lower-cased
      manufacturer sorts before `brand`. Stopping at `|ls|` is where the
      original raises `IndexError`. */
  method BrandSeekLoop(ls: seq<Listing>, brand: string, lx0: nat) returns (lx: nat)
    requires lx0 <= |ls|
    ensures lx0 <= lx <= |ls|
    ensures SeekBrand(ls, brand, lx0) == if lx == |ls| then None else Some(lx)
  {
    lx := lx0;
    while lx < |ls| && Less(LowerStr(ls[lx].manufacturer), brand)
      invariant lx0 <= lx <= |ls|
      invariant SeekBrand(ls, brand, lx) == SeekBrand(ls, brand, lx0)
    {
      lx := lx + 1;
    }
  }

  /** The name-seek loop: moves the cursor past listings of the brand whose
      lower-cased titles sort before `name`. */
  method NameSeekLoop(ls: seq<Listing>, brand: string, name: string, lx0: nat) returns (lx: nat)
    requires lx0 <= |ls|
    ensures lx0 <= lx <= |ls|
    ensures SeekName(ls, brand, name, lx0) == if lx == |ls| then None else Some(lx)
  {
    lx := lx0;
    while lx < |ls| && Contains(brand, LowerStr(ls[lx].manufacturer))
                    && Less(LowerStr(ls[lx].title), name)
      invariant lx0 <= lx <= |ls|
      invariant SeekName(ls, brand, name, lx) == SeekName(ls, brand, name, lx0)
    {
      lx := lx + 1;
    }
  }

  /** The collection loop: appends every listing whose lower-cased title
      contains `name`, advancing the cursor after each append. */
  method CollectLoop(ls: seq<Listing>, name: string, lx0: nat) returns (pListings: seq<Listing>, lx: nat)
    requires lx0 <= |ls|
    ensures lx0 <= lx <= |ls| && pListings == ls[lx0..lx]
    ensures Collect(ls, name, lx0) == if lx == |ls| then None else Some(lx)
  {
    pListings := [];
    lx := lx0;
    while lx < |ls| && Contains(name, LowerStr(ls[lx].title))
      invariant lx0 <= lx <= |ls|
      invariant pListings == ls[lx0..lx]
      invariant Collect(ls, name, lx) == Collect(ls, name, lx0)
    {
      pListings := pListings + [ls[lx]];
      lx := lx + 1;
    }
  }

  /** The loop body for one product, as written: brand seek, brand test, name
      seek and collection move the listing cursor from `lx0` to `lx`. `ranOff`
      reports that the cursor reached the end of the listings where a listing
      was needed, where the original raises `IndexError`. */
  method MatchProduct(p: Product, ls: seq<Listing>, lx0: nat)
    returns (pListings: seq<Listing>, first: nat, lx: nat, ranOff: bool)
    requires lx0 <= |ls|
    ensures lx0 <= lx <= |ls|
    ensures ranOff <==> Step(p, ls, lx0).None?
    ensures ranOff ==> lx == |ls|
    ensures !ranOff ==> Step(p, ls, lx0) == Some(Run(first, lx))
    ensures !ranOff ==> first <= lx < |ls| && pListings == ls[first..lx]
  {
    var brand := LowerStr(p.manufacturer);
    var name := LowerStr(p.productName);
    pListings := [];
    lx := BrandSeekLoop(ls, brand, lx0);
    first := lx;
    if lx == |ls| {
      ranOff := true;
      return;
    }
    if !Contains(brand, LowerStr(ls[lx].manufacturer)) {
      ranOff := false;
      return;
    }
    lx := NameSeekLoop(ls, brand, name, lx);
    first := lx;
    if lx == |ls| {
      ranOff := true;
      return;
    }
    pListings, lx := CollectLoop(ls, name, lx);
    ranOff := lx == |ls|;
  }

  /** The hits so far belong to products before `px` and lie before the
      listing cursor `lx`. */
  ghost predicate HitsBefore(hits: seq<Hit>, px: nat, lx: nat)
  {
    forall i :: 0 <= i < |hits| ==> hits[i].product < px && hits[i].first <= hits[i].end <= lx
  }

  /** One turn of the product loop: matches product `px` and appends its group
      to the output when it collected anything. When the cursor runs off the
      end, the output is left as it was. */
  method MatchNext(ps: seq<Product>, ls: seq<Listing>, px: nat, lx: nat,
                   hits: seq<Hit>, groups: seq<MatchGroup>)
    returns (hits': seq<Hit>, groups': seq<MatchGroup>, first: nat, lx': nat, ranOff: bool)
    requires px < |ps| && lx <= |ls|
    requires HitsBefore(hits, px, lx)
    requires HitsInRange(ps, ls, hits) && groups == Render(ps, ls, hits)
    ensures lx <= lx'
    ensures ranOff <==> Step(ps[px], ls, lx).None?
    ensures ranOff ==> lx' == |ls| && hits' == hits && groups' == groups
    ensures ranOff ==> ScanFrom(ps, ls, px, lx) == Outcome([], |ls|, true)
    ensures !ranOff ==> lx' <= |ls| && Step(ps[px], ls, lx) == Some(Run(first, lx'))
    ensures !ranOff && first < lx' ==> hits' == hits + [Hit(px, first, lx')]
    ensures !ranOff && first == lx' ==> hits' == hits
    ensures !ranOff ==>
      Prepend(hits, ScanFrom(ps, ls, px, lx)) == Prepend(hits', ScanFrom(ps, ls, px + 1, lx'))
    ensures HitsBefore(hits', px + 1, lx') && HitsInRange(ps, ls, hits')
    ensures groups' == Render(ps, ls, hits')
  {
    var pListings, next, off;
    pListings, first, next, off := MatchProduct(ps[px], ls, lx);
    hits', groups', lx', ranOff := hits, groups, next, off;
    if !ranOff {
      ghost var rest := ScanFrom(ps, ls, px + 1, next);
      if |pListings| > 0 {
        var h := Hit(px, first, next);
        assert ScanFrom(ps, ls, px, lx) == Prepend([h], rest);
        PrependTwice(hits, [h], rest);
        RenderAppend(ps, ls, hits, h);
        groups' := groups + [MatchGroup(Replace(ps[px].productName, ' ', '_'), pListings)];
        hits' := hits + [h];
      } else {
        assert ScanFrom(ps, ls, px, lx) == rest;
      }
    }
  }

  /** The matching loop as written: a product cursor `px` and a listing cursor
      `lx`, both from 0; `lx` only ever grows. Reaching the end of the listings
      where a listing is needed stops the loop and keeps the groups built so far. */
  method MergeMatch(ps: seq<Product>, ls: seq<Listing>) returns (groups: seq<MatchGroup>, outcome: Outcome)
    ensures outcome == Scan(ps, ls)
    ensures HitsInRange(ps, ls, outcome.hits) && groups == Render(ps, ls, outcome.hits)
  {
    ghost var scan := Scan(ps, ls);
    groups := [];
    var hits: seq<Hit> := [];
    var px: nat := 0;
    var lx: nat := 0;
    while px < |ps|
      invariant px <= |ps| && lx <= |ls|
      invariant scan == Prepend(hits, ScanFrom(ps, ls, px, lx))
      invariant HitsBefore(hits, px, lx) && HitsInRange(ps, ls, hits)
      invariant groups == Render(ps, ls, hits)
    {
      var first, ranOff;
      hits, groups, first, lx, ranOff := MatchNext(ps, ls, px, lx, hits, groups);
      if ranOff {
        assert scan == Prepend(hits, Outcome([], |ls|, true));
        outcome := Outcome(hits, lx, true);
        return;
      }
      px := px + 1;
    }
    assert ScanFrom(ps, ls, px, lx) == Outcome([], lx, false);
    outcome := Outcome(hits, lx, false);
  }

  /** The program's matching pass: the groups it writes, in product order. At
      most one group per product (the groups' products strictly increase), no
      listing in two groups (their stretches are disjoint and increasing), no
      group without listings, no more listings across all groups than there
      are listings, and nothing at all when there are no listings. */
  method MatchCatalog(ps: seq<Product>, ls: seq<Listing>) returns (groups: seq<MatchGroup>)
    ensures HitsInRange(ps, ls, Scan(ps, ls).hits) && groups == Render(ps, ls, Scan(ps, ls).hits)
    ensures |groups| <= |ps|
    ensures forall i :: 0 <= i < |groups| ==> |groups[i].listings| > 0
    ensures GroupSizes(groups) <= |ls|
    ensures |ls| == 0 ==> groups == []
    ensures HitsOrdered(Scan(ps, ls).hits)
    ensures forall i, j :: 0 <= i < |groups| && 0 <= j < |groups[i].listings| ==>
      Contains(Name(ps[Scan(ps, ls).hits[i].product]), Title(groups[i].listings[j]))
  {
    var outcome;
    groups, outcome := MergeMatch(ps, ls);
    ScanOutput(ps, ls);
    GroupsMatchName(ps, ls, outcome.hits);
  }

  /** A group holds exactly the listings of its hit, so a name found in every
      title of the hit's stretch is found in every listing of the group. */
  lemma GroupsMatchName(ps: seq<Product>, ls: seq<Listing>, hits: seq<Hit>)
    requires HitsInRange(ps, ls, hits) && HitsMatchName(ps, ls, hits)
    ensures forall i, j :: 0 <= i < |hits| && 0 <= j < |Render(ps, ls, hits)[i].listings| ==>
      Contains(Name(ps[hits[i].product]), Title(Render(ps, ls, hits)[i].listings[j]))
  {
    forall i, j | 0 <= i < |hits| && 0 <= j < |Render(ps, ls, hits)[i].listings|
      ensures Contains(Name(ps[hits[i].product]), Title(Render(ps, ls, hits)[i].listings[j]))
    {
      assert Render(ps, ls, hits)[i].listings[j] == ls[hits[i].first + j];
    }
  }

  /** Prepending twice is prepending the concatenation. */
  lemma PrependTwice(a: seq<Hit>, b: seq<Hit>, o: Outcome)
    ensures Prepend(a, Prepend(b, o)) == Prepend(a + b, o)
  {
    assert a + (b + o.hits) == (a + b) + o.hits;
  }

  /** What the scan's output looks like: at most one group per product and no
      listing in two groups (the hits are ordered), no empty group, and no
      more listings across all groups than there are listings; with no
      listings at all there is no output. */
  lemma ScanOutput(ps: seq<Product>, ls: seq<Listing>)
    ensures HitsInRange(ps, ls, Scan(ps, ls).hits)
    ensures |Render(ps, ls, Scan(ps, ls).hits)| <= |ps|
    ensures forall i :: 0 <= i < |Scan(ps, ls).hits| ==>
      |Render(ps, ls, Scan(ps, ls).hits)[i].listings| > 0
    ensures GroupSizes(Render(ps, ls, Scan(ps, ls).hits)) <= |ls|
    ensures |ls| == 0 ==> Scan(ps, ls).hits == [] && Scan(ps, ls).exhausted == (|ps| > 0)
    ensures HitsMatchName(ps, ls, Scan(ps, ls).hits)
    ensures HitsOrdered(Scan(ps, ls).hits)
  {
    var o := Scan(ps, ls);
    ScanFromBounds(ps, ls, 0, 0);
    ScanFromOrdered(ps, ls, 0, 0);
    ScanFromMatchesName(ps, ls, 0, 0);
    GroupSizesOfRender(ps, ls, o.hits);
    ListedBound(o.hits, 0, |ls|);
  }

  /** Rendering one more hit appends its group. */
  lemma RenderAppend(ps: seq<Product>, ls: seq<Listing>, hits: seq<Hit>, h: Hit)
    requires HitsInRange(ps, ls, hits)
    requires h.product < |ps| && h.first <= h.end <= |ls|
    ensures HitsInRange(ps, ls, hits + [h])
    ensures Render(ps, ls, hits + [h])
         == Render(ps, ls, hits) + [MatchGroup(OutputName(ps[h.product]), ls[h.first..h.end])]
  {
    assert forall i :: 0 <= i < |hits| ==> (hits + [h])[i] == hits[i];
  }

  /** The sizes of the rendered groups add up to the listings the hits cover. */
  lemma {:induction false} GroupSizesOfRender(ps: seq<Product>, ls: seq<Listing>, hits: seq<Hit>)
    requires HitsInRange(ps, ls, hits)
    ensures GroupSizes(Render(ps, ls, hits)) == Listed(hits)
    decreases |hits|
  {
    if |hits| > 0 {
      GroupSizesOfRender(ps, ls, hits[1..]);
      assert Render(ps, ls, hits)[1..] == Render(ps, ls, hits[1..]);
    }
  }

  /** Hits over ordered, disjoint stretches of `[lo, hi)` cover at most
      `hi - lo` listings between them. */
  lemma {:induction false} ListedBound(hits: seq<Hit>, lo: int, hi: int)
    requires HitsOrdered(hits)
    requires forall i :: 0 <= i < |hits| ==> lo <= hits[i].first <= hits[i].end <= hi
    requires lo <= hi
    ensures 0 <= Listed(hits) <= hi - lo
    decreases |hits|
  {
    if |hits| > 0 {
      ListedBound(hits[1..], hits[0].end, hi);
    }
  }

  /* ---------------------------------------------------------------------- */
  /* Early termination                                                      */
  /* ---------------------------------------------------------------------- */

  /** With no listings the first product already runs the cursor off the end:
      there is no output, and the scan counts as stopped early exactly when
      there was a product to look at. */
  lemma ScanNoListings(ps: seq<Product>)
    ensures Scan(ps, []) == Outcome([], 0, |ps| > 0)
  {
  }

  /** Once the cursor has run off the end, later products are never looked at:
      appending products to the catalog changes nothing in the result. */
  lemma {:induction false} ScanStopsForGood(ps: seq<Product>, more: seq<Product>, ls: seq<Listing>, px: nat, lx: nat)
    requires ScanFrom(ps, ls, px, lx).exhausted
    ensures ScanFrom(ps + more, ls, px, lx) == ScanFrom(ps, ls, px, lx)
    decreases |ps| - px
  {
    assert (ps + more)[px] == ps[px];
    match Step(ps[px], ls, lx)
    case None =>
    case Some(run) =>
      ScanStopsForGood(ps, more, ls, px + 1, run.end);
  }

  /** When the products `px..` of `ps` are scanned without running off the end,
      scanning `ps + more` emits the same groups first and then carries on with
      `more` from the cursor where `ps` left it. */
  lemma {:induction false} ScanAppend(ps: seq<Product>, more: seq<Product>, ls: seq<Listing>, px: nat, lx: nat)
    requires px <= |ps|
    requires !ScanFrom(ps, ls, px, lx).exhausted
    ensures ScanFrom(ps + more, ls, px, lx)
         == Prepend(ScanFrom(ps, ls, px, lx).hits,
                    ScanFrom(ps + more, ls, |ps|, ScanFrom(ps, ls, px, lx).cursor))
    decreases |ps| - px
  {
    if px == |ps| {
      assert ScanFrom(ps, ls, px, lx) == Outcome([], lx, false);
    } else {
      assert (ps + more)[px] == ps[px];
      match Step(ps[px], ls, lx)
      case None =>
      case Some(run) =>
        ScanAppend(ps, more, ls, px + 1, run.end);
        var rest := ScanFrom(ps, ls, px + 1, run.end);
        var tail := ScanFrom(ps + more, ls, |ps|, rest.cursor);
        if run.first < run.end {
          PrependTwice([Hit(px, run.first, run.end)], rest.hits, tail);
        }
    }
  }

  /* ---------------------------------------------------------------------- */
  /* Order of the output                                                    */
  /* ---------------------------------------------------------------------- */

  /** On key-sorted input the output follows the sort: groups come in product
      key order, and the listings of the whole output, read group by group, are
      at increasing positions and so in listing key order. The sort is what the
      seek phases rely on to find a product's listings; the scan itself is
      defined on any input. */
  lemma GroupsFollowSortOrder(ps: seq<Product>, ls: seq<Listing>)
    requires ProductsSorted(ps) && ListingsSorted(ls)
    ensures HitsInRange(ps, ls, Scan(ps, ls).hits)
    ensures var hits := Scan(ps, ls).hits;
      forall i, j :: 0 <= i < j < |hits| ==>
        !Less(ProductKey(ps[hits[j].product]), ProductKey(ps[hits[i].product]))
    ensures var hits := Scan(ps, ls).hits;
      forall i, j, a, b ::
        (0 <= i < j < |hits| && hits[i].first <= a < hits[i].end && hits[j].first <= b < hits[j].end) ==>
        a < b < |ls| && !Less(ListingKey(ls[b]), ListingKey(ls[a]))
  {
    ScanFromBounds(ps, ls, 0, 0);
    ScanFromOrdered(ps, ls, 0, 0);
  }
}
