/**
 The records the matcher works on, the composite sort key both record lists are
 ordered by, and the underscore/space normalisation of catalog product names.
 Only the fields the matcher reads are modelled; every other field of a record
 passes through untouched and is left out.
 */
module Records {
  import opened Text

  /** A catalog product. After loading, `productName` holds the match form,
      with every underscore of the catalog's name replaced by a space. */
  datatype Product = Product(manufacturer: string, productName: string)

  /** A listing from an external source. Its title is never normalised. */
  datatype Listing = Listing(manufacturer: string, title: string)

  /** One line of output: a product's name in underscore form and the listings
      attributed to it, in the order the scan met them. */
  datatype MatchGroup = MatchGroup(productName: string, listings: seq<Listing>)

  /** The two-character sentinel placed between manufacturer and name. */
  const Separator: string := "||"

  /** The lower-cased `manufacturer + "||" + nameOrTitle` both lists are sorted by. */
  function SortKey(manufacturer: string, nameOrTitle: string): string
  {
    LowerStr(manufacturer + Separator + nameOrTitle)
  }

  function ProductKey(p: Product): string
  {
    SortKey(p.manufacturer, p.productName)
  }

  function ListingKey(l: Listing): string
  {
    SortKey(l.manufacturer, l.title)
  }

  /** The key is the lower-cased manufacturer, the separator, and the lower-cased
      name, in that order: the separator is kept verbatim and neither field is
      altered beyond lower-casing. */
  lemma SortKeyParts(manufacturer: string, nameOrTitle: string)
    ensures SortKey(manufacturer, nameOrTitle)
         == LowerStr(manufacturer) + Separator + LowerStr(nameOrTitle)
    ensures |SortKey(manufacturer, nameOrTitle)| == |manufacturer| + 2 + |nameOrTitle|
  {
    LowerStrConcat(manufacturer + Separator, nameOrTitle);
    LowerStrConcat(manufacturer, Separator);
    assert LowerStr(Separator) == Separator;
  }

  /** The products are in ascending key order (ties in either order). */
  predicate ProductsSorted(ps: seq<Product>)
  {
    forall i, j :: 0 <= i < j < |ps| ==> !Less(ProductKey(ps[j]), ProductKey(ps[i]))
  }

  /** The listings are in ascending key order (ties in either order). */
  predicate ListingsSorted(ls: seq<Listing>)
  {
    forall i, j :: 0 <= i < j < |ls| ==> !Less(ListingKey(ls[j]), ListingKey(ls[i]))
  }

  /** A list whose neighbours are in key order is sorted as a whole: the
      pairwise and the adjacent statements of sortedness agree because `Less`
      is a strict total order. */
  lemma {:induction false} AdjacentSortedIsSorted(ls: seq<Listing>)
    requires forall i :: 0 < i < |ls| ==> !Less(ListingKey(ls[i]), ListingKey(ls[i - 1]))
    ensures ListingsSorted(ls)
    decreases |ls|
  {
    if |ls| > 1 {
      var init := ls[..|ls| - 1];
      assert forall i :: 0 <= i < |init| ==> init[i] == ls[i];
      AdjacentSortedIsSorted(init);
      var last := |ls| - 1;
      forall i | 0 <= i < last
        ensures !Less(ListingKey(ls[last]), ListingKey(ls[i]))
      {
        NotLessChain(ls, i, last);
      }
    }
  }

  /* `ls[i]` is not above `ls[last]` when every earlier pair is in order and the
     last two are in order. */
  lemma NotLessChain(ls: seq<Listing>, i: int, last: int)
    requires 0 <= i < last == |ls| - 1
    requires forall a, b :: 0 <= a < b < last ==> !Less(ListingKey(ls[b]), ListingKey(ls[a]))
    requires !Less(ListingKey(ls[last]), ListingKey(ls[last - 1]))
    ensures !Less(ListingKey(ls[last]), ListingKey(ls[i]))
  {
    var x, y, z := ListingKey(ls[i]), ListingKey(ls[last - 1]), ListingKey(ls[last]);
    if i < last - 1 {
      assert !Less(y, x);
      LessTotal(x, y);
      LessTotal(y, z);
      if Less(z, x) {
        if x == y {
        } else {
          LessTransitive(z, x, y);
        }
      }
    }
  }

  /* ---------------------------------------------------------------------- */
  /* Name normalisation                                                     */
  /* ---------------------------------------------------------------------- */

  /** Loading a catalog product puts its name into match form: underscores
      become spaces, nothing else changes. */
  function ToMatchForm(p: Product): (r: Product)
    ensures r.manufacturer == p.manufacturer
    ensures |r.productName| == |p.productName|
    ensures '_' !in r.productName
    ensures forall i :: 0 <= i < |p.productName| ==>
      r.productName[i] == (if p.productName[i] == '_' then ' ' else p.productName[i])
  {
    ReplacePointwise(p.productName, '_', ' ');
    p.(productName := Replace(p.productName, '_', ' '))
  }

  /** The name written to the output: the match form with spaces turned into
      underscores. */
  function OutputName(p: Product): (r: string)
    ensures |r| == |p.productName|
    ensures ' ' !in r
    ensures forall i :: 0 <= i < |r| ==>
      r[i] == (if p.productName[i] == ' ' then '_' else p.productName[i])
  {
    ReplacePointwise(p.productName, ' ', '_');
    Replace(p.productName, ' ', '_')
  }

  /** A catalog name with no spaces of its own comes back out exactly as it went in. */
  lemma NameRoundTrip(raw: Product)
    requires ' ' !in raw.productName
    ensures OutputName(ToMatchForm(raw)) == raw.productName
  {
    ReplaceRoundTrip(raw.productName, '_', ' ');
  }

  /** The round trip restores a catalog name exactly when the name has no
      space of its own: a space in the raw name comes back as an underscore. */
  lemma NameRoundTripLosesSpaces(raw: Product)
    ensures OutputName(ToMatchForm(raw)) == raw.productName <==> ' ' !in raw.productName
  {
    if ' ' in raw.productName {
      var i :| 0 <= i < |raw.productName| && raw.productName[i] == ' ';
      assert OutputName(ToMatchForm(raw))[i] == '_';
    } else {
      NameRoundTrip(raw);
    }
  }
}
