/** The simulated web search of claudeService.js:115-195: a case-sensitive
    substring test on the query picks one of three canned listings, each
    introduced by a header that quotes the query.  The search never fails. */
module WebSearch {
  import opened Text

  /** Which canned listing a query gets. */
  datatype Listing = Museums | Outdoors | General

  const SanFrancisco: Str := Units("San Francisco")
  const Museum: Str := Units("museum")
  const GoldenGatePark: Str := Units("Golden Gate Park")
  const Outdoor: Str := Units("outdoor")

  /** The header's text before and after the query. */
  const HeaderOpen: Str := Units("Search results for \"")
  const HeaderClose: Str := Units("\":")

  /** The canned text after the header of the museum listing (claudeService.js:122-154),
      cut after its first heading. */
  const MuseumResults: Str := Units("\n\n**Exploratorium - ") + MuseumTail

  /** The canned text after the header of the outdoor listing (claudeService.js:157-174),
      cut after its first heading. */
  const OutdoorResults: Str := Units("\n\n**") + GoldenGatePark + OutdoorTail

  /** The canned text after the header of the general listing (claudeService.js:177-191),
      cut after its first heading. */
  const GeneralResults: Str := Units("\n\n**General San Francisco") + GeneralTail

  /** The last words of each listing's text. */
  const MuseumTail: Str := Units("San Francisco**")
  const OutdoorTail: Str := Units(" - Multiple Attractions**")
  const GeneralTail: Str := Units(" Family Activities**")

  /** The listing chosen by the if/else chain of claudeService.js:121-192. */
  function ChooseListing(query: Str): Listing {
    if Contains(query, SanFrancisco) && Contains(query, Museum) then Museums
    else if Contains(query, GoldenGatePark) || Contains(query, Outdoor) then Outdoors
    else General
  }

  /** The museum listing exactly when the query names both San Francisco and
      a museum, else the outdoor listing exactly when it names Golden Gate
      Park or the outdoors, else the general one. */
  lemma ChooseListingCases(query: Str)
    ensures ChooseListing(query) == Museums <==> Contains(query, SanFrancisco) && Contains(query, Museum)
    ensures ChooseListing(query) == Outdoors <==>
      !(Contains(query, SanFrancisco) && Contains(query, Museum)) &&
      (Contains(query, GoldenGatePark) || Contains(query, Outdoor))
    ensures ChooseListing(query) == General <==>
      !(Contains(query, SanFrancisco) && Contains(query, Museum)) &&
      !Contains(query, GoldenGatePark) && !Contains(query, Outdoor)
  {
  }

  function Results(l: Listing): Str {
    match l
    case Museums => MuseumResults
    case Outdoors => OutdoorResults
    case General => GeneralResults
  }

  /** The header line quoting the query. */
  function Header(query: Str): (h: Str)
    ensures |h| == |HeaderOpen| + |query| + |HeaderClose|
  {
    HeaderOpen + query + HeaderClose
  }

  /** performWebSearch(query): the header, then the chosen listing. */
  function PerformWebSearch(query: Str): (r: Str)
    ensures StartsWith(r, Header(query))
  {
    Header(query) + Results(ChooseListing(query))
  }

  predicate EndsWith(s: Str, suffix: Str) {
    |suffix| <= |s| && s[|s| - |suffix|..] == suffix
  }

  /** Which listing a search result ends with, if any. */
  function ListingOf(r: Str): (l: Option<Listing>)
    ensures l.Some? ==> EndsWith(r, HeaderClose + Results(l.value))
  {
    if EndsWith(r, HeaderClose + MuseumResults) then Some(Museums)
    else if EndsWith(r, HeaderClose + OutdoorResults) then Some(Outdoors)
    else if EndsWith(r, HeaderClose + GeneralResults) then Some(General)
    else None
  }

  /** Reads a search result back into its query and listing: the text
      between the header's opening and the closing quote before the
      listing. */
  function ReadSearch(r: Str): Option<(Str, Listing)> {
    match ListingOf(r)
    case None => None
    case Some(l) =>
      var tail := |HeaderClose + Results(l)|;
      if |HeaderOpen| + tail <= |r| && StartsWith(r, HeaderOpen) then
        Some((r[|HeaderOpen|..|r| - tail], l))
      else None
  }

  /** The unit four from the end of each listing's text as shortened here
      (the end of its first heading).  The full listings end differently;
      this tag, and with it ResultsDistinct, depend on the shortened texts. */
  function Tag(l: Listing): CodeUnit {
    match l
    case Museums => 'c' as int as CodeUnit
    case Outdoors => 'n' as int as CodeUnit
    case General => 'e' as int as CodeUnit
  }

  lemma IndexFromEnd(a: Str, b: Str, k: nat)
    requires 1 <= k <= |b|
    ensures (a + b)[|a + b| - k] == b[|b| - k]
  {
  }

  lemma TagAt(l: Listing)
    ensures var t := HeaderClose + Results(l); |t| >= 4 && t[|t| - 4] == Tag(l)
  {
    var u := TagTail(l);
    match l
    case Museums => IndexFromEnd(Units("\n\n**Exploratorium - "), u, 4);
    case Outdoors => IndexFromEnd(Units("\n\n**") + GoldenGatePark, u, 4);
    case General => IndexFromEnd(Units("\n\n**General San Francisco"), u, 4);
    IndexFromEnd(HeaderClose, Results(l), 4);
  }

  /** The last words of the listing's text. */
  function TagTail(l: Listing): (u: Str)
    ensures |u| >= 4 && u[|u| - 4] == Tag(l)
  {
    match l
    case Museums => MuseumTail
    case Outdoors => OutdoorTail
    case General => GeneralTail
  }

  /** The shortened results of distinct listings differ four units from
      the end, so none ends with another's. */
  lemma ResultsDistinct(r: Str, l: Listing, l': Listing)
    requires EndsWith(r, HeaderClose + Results(l)) && l' != l
    ensures !EndsWith(r, HeaderClose + Results(l'))
  {
    TagAt(l);
    TagAt(l');
    var t := HeaderClose + Results(l);
    assert r[|r| - 4] == t[|t| - 4];
  }

  lemma Regroup(a: Str, b: Str, c: Str, d: Str)
    ensures a + b + c + d == (a + b) + (c + d)
  {
  }

  lemma EndsWithConcat(a: Str, b: Str)
    ensures EndsWith(a + b, b) && StartsWith(a + b, a)
  {
    assert (a + b)[|a|..] == b;
    assert (a + b)[..|a|] == a;
  }

  /** A search result ends with the closing quote and its listing, and with
      no other listing. */
  lemma ListingOfResult(query: Str)
    ensures ListingOf(PerformWebSearch(query)) == Some(ChooseListing(query))
  {
    var l := ChooseListing(query);
    var r := PerformWebSearch(query);
    Regroup(HeaderOpen, query, HeaderClose, Results(l));
    EndsWithConcat(HeaderOpen + query, HeaderClose + Results(l));
    if l != Museums {
      ResultsDistinct(r, l, Museums);
    }
    if l == General {
      ResultsDistinct(r, l, Outdoors);
    }
  }

  /** The query and the listing can be read back from every search result. */
  lemma ReadSearchResult(query: Str)
    ensures ReadSearch(PerformWebSearch(query)) == Some((query, ChooseListing(query)))
  {
    var l := ChooseListing(query);
    var r := PerformWebSearch(query);
    ListingOfResult(query);
    var tail := HeaderClose + Results(l);
    Regroup(HeaderOpen, query, HeaderClose, Results(l));
    EndsWithConcat(HeaderOpen, query + tail);
    assert |HeaderOpen| + |tail| <= |r| && StartsWith(r, HeaderOpen);
    assert r[|HeaderOpen|..|r| - |tail|] == query;
  }

  /** includes of a pattern whose first unit is absent is false. */
  lemma WithoutFirst(s: Str, pat: Str)
    requires |pat| > 0 && pat[0] !in s
    ensures !Contains(s, pat)
  {
  }

  /** The test is case-sensitive: a query in capitals naming a museum in
      San Francisco gets the general listing. */
  lemma CaseSensitive()
    ensures ChooseListing(Units("SAN FRANCISCO MUSEUM")) == General
  {
    var q := Units("SAN FRANCISCO MUSEUM");
    assert Museum[0] !in q && GoldenGatePark[0] !in q && Outdoor[0] !in q by {
      forall i | 0 <= i < |q|
        ensures q[i] != Museum[0] && q[i] != GoldenGatePark[0] && q[i] != Outdoor[0]
      {
      }
    }
    WithoutFirst(q, Museum);
    WithoutFirst(q, GoldenGatePark);
    WithoutFirst(q, Outdoor);
  }
}
