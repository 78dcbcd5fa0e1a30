# Sort-and-merge product matcher

A Dafny model of the matching pass in `SortableChallenge.py`. The program takes
a catalog of products (manufacturer and model name) and a list of listings from
outside sources (manufacturer and free-text title). It attributes each listing
to at most one product.

Both lists are sorted by the key `lower(manufacturer + "||" + name_or_title)`.
The program then walks them side by side with two cursors. For each product it
runs four steps:

1. **Brand seek.** Skip listings whose lower-cased manufacturer sorts before the
   product's brand.
2. **Brand test.** Check that the brand is a substring of the manufacturer of the
   listing the seek stopped on.
3. **Name seek.** Skip listings of that brand whose titles sort before the
   product's name.
4. **Collect.** Take the contiguous run of listings whose titles contain the name.

A product with a non-empty run becomes an output group, under its name written
in underscore form. When the listing cursor runs off the end of the listings,
Python raises `IndexError`. The program catches it, stops the whole scan and
keeps the groups produced so far.

The project has four files:

- `text.dfy` (module `Text`): the string primitives the scan is built from.
  - ASCII lower-casing.
  - Python's substring test `needle in hay`.
  - Python's string order, lexicographic by code point.
  - One-character `str.replace`.

  Each comes with an independent characterisation: occurrence at a position,
  the first differing character, pointwise rewriting.
- `records.dfy` (module `Records`): the product, listing and output-group
  records, the composite sort key, sortedness, and the underscore/space
  normalisation of product names.
- `matcher.dfy` (module `Matcher`): the scan, written twice.
  - As pure phase functions (`SeekBrand`, `SeekName`, `Collect`, `Step`,
    `ScanFrom`). These are the reference.
  - As the cursor loop the program runs (`BrandSeekLoop`, `NameSeekLoop`,
    `CollectLoop`, `MatchProduct`, `MatchNext`, `MergeMatch`). These are proved
    equal to the reference.

  It also holds the lemmas about the scan's output: bounds, ordering, no
  listing used twice, name containment, early stop.
- `scenarios.dfy` (module `Scenarios`): concrete runs that pin down behaviour at
  the edges.

`IndexError` is modelled as an explicit bound. Each phase returns `None` exactly
when the cursor reaches `|listings|` at a point where the program would read a
listing. Every cursor increment in the source is followed by such a read, so
this is exactly when the program raises.

### Where the code differs from its stated intent

The model follows the code in each case below.

- **Canon / "Canon Canada".** The header comment (`SortableChallenge.py:25-26`)
  says "Canon" will match "Canon Canada". Take the catalog product "Canon" /
  "EOS_5D" and the single listing "Canon Canada" / "Canon EOS 5D Mark II". One
  would expect one group; the code yields none.
  - The brand test passes.
  - The name seek skips the listing, because "canon eos 5d mark ii" < "eos 5d".
  - The cursor then runs off the end and the scan stops.

  See `Scenarios.CanonTitleSortsBeforeName`.
- **Adjacent product names.** The algorithm relies on the sort to know when to
  move on to the next product (`SortableChallenge.py:20-21`). A listing can still
  go to the wrong one of two adjacent products: a title that contains a longer
  name also contains a shorter name that is its prefix, and the earlier
  product, with the shorter name, collects it. See
  `Scenarios.ShorterNameTakesLongerNamesListing`.
- **Losing the in-progress product's listings.** Groups already built are kept
  when the listings run out. The product being examined, however, loses
  everything it had collected if its run reaches the last listing: `IndexError`
  is raised before the group is appended. See `Scenarios.RunToEndLosesGroup`.

## Model

| member | source | states |
|---|---|---|
| Text.LowerStr | SortableChallenge.py:60-61 | `.lower()` on ASCII text keeps the length; `LowerStrIsLower` states what it does to each character (a capital becomes its own small letter, anything else is kept) |
| Text.LowerStrIsLower | SortableChallenge.py:60-61 | lower-casing turns each capital A-Z into the matching small letter, keeps every other character in place, leaves no capital and is idempotent |
| Text.LowerStrConcat | SortableChallenge.py:44 | lower-casing the joined key is joining the lower-cased parts |
| Text.Contains | SortableChallenge.py:67 | Python's `needle in hay`, scanning for a position where the needle is a prefix; characterised by `ContainsIffOccurs` |
| Text.ContainsIffOccurs | SortableChallenge.py:67 | Python's `needle in hay` holds exactly when `needle` occurs at some position of `hay` (both directions) |
| Text.ContainsTrivial | SortableChallenge.py:73 | the empty name is in every title, and every string contains itself |
| Text.ContainsNotLonger | SortableChallenge.py:73 | a name longer than the title is never found in it |
| Text.Less | SortableChallenge.py:64 | Python's `a < b` on `str`; characterised by `LessIffPrefixOrDifference` and shown a strict total order by `LessIrreflexive`, `LessTransitive`, `LessTotal` |
| Text.LessIffPrefixOrDifference | SortableChallenge.py:64 | string `<` holds exactly when `a` is a proper prefix of `b` or the first differing character of `a` is smaller (both directions) |
| Text.PrefixNotLess | SortableChallenge.py:64 | a manufacturer that begins with the brand never sorts before the brand, so the brand seek stops on it |
| Text.LessIrreflexive | SortableChallenge.py:44 | no key sorts before itself |
| Text.LessTransitive | SortableChallenge.py:44 | the key order is transitive |
| Text.LessTotal | SortableChallenge.py:52 | any two distinct keys are ordered one way and never both ways |
| Text.Replace | SortableChallenge.py:42 | one-character `str.replace`; characterised position by position by `ReplacePointwise` |
| Text.ReplacePointwise | SortableChallenge.py:42 | one-character replace keeps the length, rewrites exactly the occurrences of the old character and leaves none behind |
| Text.ReplaceRoundTrip | SortableChallenge.py:79 | replacing a character and replacing it back restores a string that did not contain the replacement |
| Records.SortKey | SortableChallenge.py:44 | the key `lower(manufacturer + "\|\|" + name_or_title)`; its parts are stated by `SortKeyParts` |
| Records.SortKeyParts | SortableChallenge.py:44 | the key is the lower-cased manufacturer, the separator `"\|\|"` verbatim, and the lower-cased name or title |
| Records.AdjacentSortedIsSorted | SortableChallenge.py:52 | a list whose neighbours are in key order is sorted pairwise |
| Records.ToMatchForm | SortableChallenge.py:42 | the match form keeps the manufacturer and length; every underscore of the name becomes a space and every other character is unchanged, so no underscore remains |
| Records.OutputName | SortableChallenge.py:79 | the output name has the same length; every space of the match form becomes an underscore and every other character is unchanged, so no space remains |
| Records.NameRoundTrip | SortableChallenge.py:42 | a catalog name without spaces comes back from normalisation and output exactly as it was |
| Records.NameRoundTripLosesSpaces | SortableChallenge.py:79 | for every catalog name, the round trip restores it exactly when it has no space of its own (both directions): a space in the raw name comes back as an underscore |
| Matcher.SeekBrand | SortableChallenge.py:64-65 | the brand seek stops on the first listing whose manufacturer does not sort before the brand, having skipped only ones that do; None when it runs off the end |
| Matcher.SeekName | SortableChallenge.py:69-70 | the name seek stops on the first listing that is not (of the brand and titled before the name), having skipped only ones that are; None when it runs off the end |
| Matcher.Collect | SortableChallenge.py:73-75 | the run ends at the first title without the name; every title in the run has it; None when the run reaches the end |
| Matcher.Step | SortableChallenge.py:63-75 | one product's run lies at or after the cursor and strictly inside the listings |
| Matcher.StepMatchesName | SortableChallenge.py:67-74 | every listing a product collects has its name in the title; a failed brand test collects nothing and leaves the cursor where the seek stopped |
| Matcher.ScanFrom | SortableChallenge.py:54-83 | the reference scan from product `px` and cursor `lx`, stopping for good with the groups so far when a step runs off the end; its properties are stated by `ScanFromBounds`, `ScanFromOrdered`, `ScanFromMatchesName`, `ScanStopsForGood` and `ScanAppend`, and `MergeMatch` is proved equal to it |
| Matcher.Scan | SortableChallenge.py:55 | the reference scan from the first product with the cursor at 0 |
| Matcher.ScanFromBounds | SortableChallenge.py:55-75 | the cursor never moves back, the scan stops early only at the end of the listings, there are no more hits than products left, every hit's product lies among the products scanned, and every group is a non-empty stretch that was passed over |
| Matcher.ScanFromOrdered | SortableChallenge.py:73-75 | groups come in product order over disjoint, increasing stretches, so no listing is in two groups |
| Matcher.ScanFromMatchesName | SortableChallenge.py:73-74 | every listing of every group has the product's name in its title |
| Matcher.BrandSeekLoop | SortableChallenge.py:64-65 | the brand-seek loop moves the cursor forward to where the brand seek stops, or to the end |
| Matcher.NameSeekLoop | SortableChallenge.py:69-70 | the name-seek loop moves the cursor forward to where the name seek stops, or to the end |
| Matcher.CollectLoop | SortableChallenge.py:73-75 | the collection loop gathers exactly the listings between the start and the stop position |
| Matcher.MatchProduct | SortableChallenge.py:58-75 | the loop body for one product never moves the cursor back, reports running off the end exactly when a phase does, and otherwise collects exactly the run |
| Matcher.MatchNext | SortableChallenge.py:57-80 | one turn of the product loop never moves the cursor back, runs off the end exactly when the product's step does, otherwise leaves the cursor where the step's run ends and appends exactly that run as a hit when it is non-empty (nothing otherwise), and leaves the output alone when the cursor runs off the end |
| Matcher.MergeMatch | SortableChallenge.py:54-83 | the two-cursor loop, including stopping on `IndexError`, computes exactly the reference scan's groups |
| Matcher.MatchCatalog | SortableChallenge.py:78-80 | the output's groups belong to strictly increasing products (so at most one group per product) over disjoint, increasing stretches of listings (so no listing in two groups); no empty group, no more listings than exist, every listing's lower-cased title contains its product's lower-cased, space-form name, and nothing when there are no listings |
| Matcher.Render | SortableChallenge.py:79-80 | the output entries of a list of hits, one per hit: the product's underscore-form name and its stretch of listings; `RenderAppend` and `GroupSizesOfRender` state how it grows and how big it is |
| Matcher.GroupsMatchName | SortableChallenge.py:79-80 | each output group holds exactly its stretch of listings, so every one of them has the product's name in its title |
| Matcher.ScanOutput | SortableChallenge.py:78-80 | the scan's hits have strictly increasing products over disjoint, increasing stretches (one group per product at most, no listing twice); no empty group, no more listings than exist, every listing titled with its product's name |
| Matcher.RenderAppend | SortableChallenge.py:79-80 | recording one more group appends its output entry at the end |
| Matcher.ListedBound | SortableChallenge.py:74-75 | groups over disjoint, ordered stretches of a range cover at most that range's length |
| Matcher.GroupSizesOfRender | SortableChallenge.py:74 | the output group sizes add up to the lengths of the recorded stretches |
| Matcher.ScanNoListings | SortableChallenge.py:81-83 | with no listings there is no output, and the scan stops early exactly when there is a product |
| Matcher.ScanStopsForGood | SortableChallenge.py:81-83 | once the cursor has run off the end, later products change nothing |
| Matcher.ScanAppend | SortableChallenge.py:57 | scanning more products after a scan that did not stop keeps its groups and continues from its cursor |
| Matcher.GroupsFollowSortOrder | SortableChallenge.py:57-80 | on sorted input, groups come in product key order, and listings across groups are at increasing positions and in listing key order |
| Scenarios.CanonTitleSortsBeforeName | SortableChallenge.py:67-70 | "Canon Canada" / "Canon EOS 5D Mark II" is skipped by the name seek for "EOS 5D" and the scan stops with nothing written |
| Scenarios.NameSeekSkipsOnlyListing | SortableChallenge.py:69-70 | a lone listing of the brand titled before the name is skipped, and the scan stops with nothing written |
| Scenarios.CanonMatchForm | SortableChallenge.py:42 | "EOS_5D" is matched as "EOS 5D" |
| Scenarios.AgfaMatchForm | SortableChallenge.py:42 | "110_IS" is matched as "110 IS" |
| Scenarios.AgfaRunTogetherModelMisses | SortableChallenge.py:73 | "AgfaPhoto" passes the brand test for "Agfa", but "110 is" is not in "110is", so nothing is written |
| Scenarios.NameNotInOnlyTitle | SortableChallenge.py:73-78 | a lone listing that passes both seeks but lacks the name yields no group and no early stop |
| Scenarios.ListingsExhaustedKeepEarlierGroups | SortableChallenge.py:81-83 | running out of listings at the second product keeps the first product's group |
| Scenarios.RunToEndLosesGroup | SortableChallenge.py:73-80 | a run that reaches the last listing is lost with the `IndexError` |
| Scenarios.CollectedListingNeedNotHaveBrand | SortableChallenge.py:73-74 | collection tests only the name: a listing of another manufacturer is collected |
| Scenarios.ShorterNameTakesLongerNamesListing | SortableChallenge.py:73-75 | a product named "5d" collects the "5d ii kit" listing ahead of the product "5d ii" |
| Scenarios.SpacedNameComesBackUnderscored | SortableChallenge.py:79 | the catalog name "5D II" is written out as "5D_II" |
| Scenarios.EmptyNameSwallowsTheRest | SortableChallenge.py:73-75 | for any listings whose first listing stops the brand seek and passes the brand test, an empty product name collects every remaining listing and so stops the scan with nothing written |

## Left out

- JSON decoding of the input lines and encoding of the output lines (`SortableChallenge.py:33-34`, `:41`, `:50`, `:87`): these are library calls. Records are modelled by the fields the scan reads. The other fields pass through untouched and are not modelled.
- Reading `products.txt` and `listings.txt`, writing `output.txt`, and the final `print` (`SortableChallenge.py:39-52`, `:84-89`): file I/O. The model's input is the two record lists already in memory, and its output is the list of groups.
- The sorting itself (`list.sort` at `SortableChallenge.py:44`, `:52`): Timsort is not modelled. Sortedness by key is the predicate `ProductsSorted` / `ListingsSorted`. The scan is defined on any order, and sortedness is assumed only where the output's order is stated.
- `str.lower()` is modelled for ASCII letters only. Other characters are left unchanged, whereas Python also folds non-ASCII capitals.
- String comparison is by code point. Under either Python version the JSON decoder yields unicode strings, so keys are always compared as decoded text; the decoding itself is left out with the JSON handling above.
- Scenarios.AgfaRunTogetherModelMisses: uses the title "110IS" rather than "Agfa 110IS Camera". Both titles lack "110 is" and stop the name seek in the same way, and the shorter one keeps the proof small.
