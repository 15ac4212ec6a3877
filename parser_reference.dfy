/** An independent account of what parseActivities returns.  Each trimmed
    line is classified on its own; the records are then read off the
    sequence of classified lines: one per title line, carrying the
    description lines and the last pin line of its block, and repeated once
    more for every lone "**" line of its block.  ParseMatchesReference proves
    that the single pass with its mutable slot computes exactly this. */
module ParserReference {
  import opened Text
  import opened ActivityParser

  /** The text of a description line: longer than 20 code units. */
  type Prose = s: Str | |s| > MinDescriptionLength witness seq(MinDescriptionLength + 1, _ => Space)

  /** What a trimmed line contributes, by the branch conditions of
      claudeService.js:55-86 taken without regard to the current record. */
  datatype Line =
    | Title(emoji: Str, name: Str)           // "**" splits it into 3 or more parts
    | LoneMarker                             // it has "**" but fewer than 3 parts
    | Description(text: Prose)               // longer than 20 units, no "**", no pin glyph
    | Place(location: Str, distance: Str)    // it starts with the pin glyph and has no "**"
    | Other

  function Classify(l: Str): (x: Line)
    ensures x.Title? || x.LoneMarker? ==> Contains(l, Marker)
    ensures x.Description? ==> x.text == l && |l| > MinDescriptionLength
    ensures x.Place? ==> StartsWith(l, Pin)
  {
    if Contains(l, Marker) && |l| > 0 then
      var parts := SplitOn(l, Marker);
      if |parts| >= 3 then Title(Trim(parts[0]), Trim(parts[1])) else LoneMarker
    else if |l| > MinDescriptionLength && !StartsWith(l, Pin) then Description(l)
    else if StartsWith(l, Pin) then
      var fields := PinFields(l);
      Place(fields.0, fields.1)
    else Other
  }

  /** Which branch a trimmed line takes: a title when "**" splits it into
      at least 3 parts, a lone marker when exactly 2, a description when it
      is longer than 20 units with no "**" and no leading pin, a place when
      it has a leading pin and no "**". */
  lemma ClassifyBranches(l: Str)
    ensures Classify(l).Title? <==> |SplitOn(l, Marker)| >= 3
    ensures Classify(l).LoneMarker? <==> |SplitOn(l, Marker)| == 2
    ensures Classify(l).Description? <==>
      !Contains(l, Marker) && |l| > MinDescriptionLength && !StartsWith(l, Pin)
    ensures Classify(l).Place? <==> !Contains(l, Marker) && StartsWith(l, Pin)
    ensures Classify(l).Title? ==>
      var parts := SplitOn(l, Marker);
      Classify(l) == Title(Trim(parts[0]), Trim(parts[1]))
  {
    SplitOnContains(l, Marker);
    if Contains(l, Marker) {
      assert |l| > 0;
    }
  }

  /** The lines of a text, trimmed and classified. */
  function Classified(lines: seq<Str>): (xs: seq<Line>)
    ensures |xs| == |lines|
    ensures forall i :: 0 <= i < |lines| ==> xs[i] == Classify(Trim(lines[i]))
  {
    seq(|lines|, i requires 0 <= i < |lines| => Classify(Trim(lines[i])))
  }

  /** The index of the last title line, if there is one. */
  function LastTitle(xs: seq<Line>): (r: Option<nat>)
    ensures r.Some? ==> r.value < |xs| && xs[r.value].Title?
    ensures r.Some? ==> forall j :: r.value < j < |xs| ==> !xs[j].Title?
    ensures r.None? ==> forall j :: 0 <= j < |xs| ==> !xs[j].Title?
  {
    if xs == [] then None
    else if xs[|xs| - 1].Title? then Some(|xs| - 1)
    else LastTitle(xs[..|xs| - 1])
  }

  /** The texts of the description lines of a block, in order. */
  function Descriptions(body: seq<Line>): seq<Prose> {
    if body == [] then []
    else
      var x := body[|body| - 1];
      Descriptions(body[..|body| - 1]) + if x.Description? then [x.text] else []
  }

  /** Texts joined with single spaces. */
  function JoinSpace(ds: seq<Str>): Str {
    if ds == [] then [] else Join(ds, [Space])
  }

  /** The location and distance of the last pin line of a block, or two
      empty strings when it has none. */
  function LastPlace(body: seq<Line>): (Str, Str) {
    if body == [] then ([], [])
    else
      var x := body[|body| - 1];
      if x.Place? then (x.location, x.distance) else LastPlace(body[..|body| - 1])
  }

  /** The number of lone "**" lines of a block. */
  function LoneMarkers(body: seq<Line>): nat {
    if body == [] then 0
    else LoneMarkers(body[..|body| - 1]) + if body[|body| - 1].LoneMarker? then 1 else 0
  }

  /** The record of a title line followed by the lines of its block. */
  function Filled(title: Line, body: seq<Line>): Activity
    requires title.Title?
  {
    var place := LastPlace(body);
    Activity(title.emoji, StrongOpen + title.name + StrongClose,
             JoinSpace(Descriptions(body)), place.0, place.1)
  }

  function Repeat(v: Activity, k: nat): (r: seq<Activity>)
    ensures |r| == k && forall i :: 0 <= i < k ==> r[i] == v
  {
    seq(k, _ => v)
  }

  /** The records of the classified lines xs: those before the last title
      line, then the last title's record, once and once more per lone "**"
      line after it. */
  function Reference(xs: seq<Line>): (r: seq<Activity>)
    decreases |xs|
    ensures r == [] <==> LastTitle(xs).None?
    ensures forall k :: 0 <= k < |r| ==> StartsWith(r[k].title, StrongOpen)
  {
    match LastTitle(xs)
    case None => []
    case Some(t) =>
      var v := Filled(xs[t], xs[t + 1..]);
      assert v.title[..|StrongOpen|] == StrongOpen;
      Reference(xs[..t]) + Repeat(v, 1 + LoneMarkers(xs[t + 1..]))
  }

  // ---------------------------------------------------------------------
  // The pass on classified lines.
  // ---------------------------------------------------------------------

  /** One step of the pass on a classified line. */
  function LineStep(st: ParseState, x: Line, n: nat): (r: ParseState)
    requires Consistent(st, n)
    ensures Consistent(r, n + 1)
  {
    match x
    case Title(emoji, name) =>
      var pushed := Pushed(st);
      pushed.(values := pushed.values[n := Activity(emoji, StrongOpen + name + StrongClose, [], [], [])],
              current := Some(n))
    case LoneMarker => Pushed(st)
    case Description(text) =>
      if st.current.Some? then Described(st, st.current.value, text) else st
    case Place(location, distance) =>
      if st.current.Some? then Placed(st, st.current.value, location, distance) else st
    case Other => st
  }

  /** A step of the pass on a line is the step on its classification. */
  lemma StepOfClassified(st: ParseState, l: Str, n: nat)
    requires Consistent(st, n)
    ensures Step(st, l, n) == LineStep(st, Classify(l), n)
  {
    if Contains(l, Marker) && |l| > 0 {
      assert Step(st, l, n) == Titled(st, l, n);
    } else if st.current.Some? && |l| > MinDescriptionLength && !StartsWith(l, Pin) {
      assert Step(st, l, n) == Described(st, st.current.value, l);
    } else if st.current.Some? && StartsWith(l, Pin) {
      assert Step(st, l, n) == Located(st, st.current.value, l);
    }
  }

  /** st is the state of the pass after the classified lines xs: with no
      title yet, nothing is pushed or current; otherwise the state is Open
      on the last title line with the record of its block, pushed once per
      lone "**" line since, after the reference records of the lines before
      that title. */
  ghost predicate Tracks(xs: seq<Line>, st: ParseState) {
    match LastTitle(xs)
    case None => Consistent(st, |xs|) && st.entries == [] && st.current.None?
    case Some(t) => Open(st, |xs|, t, Cur(xs), Pend(xs), Prior(xs))
  }

  /** The record of the last title line's block. */
  function Cur(xs: seq<Line>): Activity
    requires LastTitle(xs).Some?
  {
    var t := LastTitle(xs).value;
    Filled(xs[t], xs[t + 1..])
  }

  /** The number of lone "**" lines after the last title line. */
  function Pend(xs: seq<Line>): nat
    requires LastTitle(xs).Some?
  {
    var t := LastTitle(xs).value;
    LoneMarkers(xs[t + 1..])
  }

  /** The reference records of the lines before the last title line. */
  function Prior(xs: seq<Line>): seq<Activity>
    requires LastTitle(xs).Some?
  {
    Reference(xs[..LastTitle(xs).value])
  }

  /** Cur, Pend and Prior after one more line that is not a title. */
  lemma BlockSnoc(xs: seq<Line>, x: Line)
    requires LastTitle(xs).Some? && !x.Title?
    ensures LastTitle(xs + [x]) == LastTitle(xs)
    ensures Pend(xs + [x]) == Pend(xs) + if x.LoneMarker? then 1 else 0
    ensures Prior(xs + [x]) == Prior(xs)
    ensures x.Description? ==>
      var d := Cur(xs).description;
      Cur(xs + [x]) == Cur(xs).(description := if |d| > 0 then d + [Space] + x.text else x.text)
    ensures x.Place? ==> Cur(xs + [x]) == Cur(xs).(location := x.location, distance := x.distance)
    ensures !x.Description? && !x.Place? ==> Cur(xs + [x]) == Cur(xs)
  {
    var t := LastTitle(xs).value;
    Snoc(xs, x);
    SnocSlices(xs, x, t);
    Snoc(xs[t + 1..], x);
    FilledSnoc(xs[t], xs[t + 1..], x);
  }

  /** The records of the lines up to and including the open block. */
  lemma ReferenceOpen(xs: seq<Line>)
    requires LastTitle(xs).Some?
    ensures Reference(xs) == Prior(xs) + Repeat(Cur(xs), 1 + Pend(xs))
  {
  }

  /** After a title line, its block is empty. */
  lemma BlockTitled(xs: seq<Line>, x: Line)
    requires x.Title?
    ensures LastTitle(xs + [x]) == Some(|xs|)
    ensures Cur(xs + [x]) == Fresh(x) && Pend(xs + [x]) == 0 && Prior(xs + [x]) == Reference(xs)
  {
    var xs' := xs + [x];
    Snoc(xs, x);
    assert xs'[|xs| + 1..] == [] && xs'[..|xs|] == xs && xs'[|xs|] == x;
    assert Descriptions([]) == [] && LastPlace([]) == ([], []);
  }

  /** The record of origin t is current with value v, its last p pushes
      end the entries, and the entries before them come before t and have
      the values rs. */
  ghost predicate Open(st: ParseState, n: nat, t: nat, v: Activity, p: nat, rs: seq<Activity>) {
    && Consistent(st, n)
    && st.current == Some(t)
    && st.values[t] == v
    && p <= |st.entries|
    && (forall k :: |st.entries| - p <= k < |st.entries| ==> st.entries[k] == t)
    && (forall k :: 0 <= k < |st.entries| - p ==> st.entries[k] < t)
    && ValuesOf(st.values, st.entries[..|st.entries| - p]) == rs
  }

  /** A lone "**" line pushes the open record once more. */
  lemma OpenPushed(st: ParseState, n: nat, t: nat, v: Activity, p: nat, rs: seq<Activity>)
    requires Open(st, n, t, v, p, rs)
    ensures Open(Pushed(st), n + 1, t, v, p + 1, rs)
  {
    var r := Pushed(st);
    assert r.entries[..|r.entries| - (p + 1)] == st.entries[..|st.entries| - p];
  }

  /** A description or pin line changes only the open record's value. */
  lemma OpenUpdated(st: ParseState, n: nat, t: nat, v: Activity, p: nat, rs: seq<Activity>, v': Activity)
    requires Open(st, n, t, v, p, rs)
    ensures Open(st.(values := st.values[t := v']), n + 1, t, v', p, rs)
  {
    var e := |st.entries| - p;
    ValuesOfUpdate(st.values, st.entries[..e], t, v');
  }

  /** Pushing the open record, by a title line or at the end of the text,
      gives the earlier values followed by p + 1 copies of v. */
  lemma OpenFlushed(st: ParseState, n: nat, t: nat, v: Activity, p: nat, rs: seq<Activity>)
    requires Open(st, n, t, v, p, rs)
    ensures Flushed(st) == Pushed(st).entries
    ensures ValuesOf(st.values, Flushed(st)) == rs + Repeat(v, 1 + p)
  {
    var es := Flushed(st);
    var e := |st.entries| - p;
    assert es[..e] == st.entries[..e];
    var vs := ValuesOf(st.values, es);
    assert vs[..e] == ValuesOf(st.values, es[..e]);
    assert vs == vs[..e] + vs[e..];
  }

  /** The record a title line opens. */
  function Fresh(x: Line): Activity
    requires x.Title?
  {
    Activity(x.emoji, StrongOpen + x.name + StrongClose, [], [], [])
  }

  /** A title line opens a record of its own after the records so far. */
  lemma OpenTitled(st: ParseState, n: nat, x: Line, rs: seq<Activity>)
    requires x.Title? && Consistent(st, n)
    requires (forall k :: 0 <= k < |Pushed(st).entries| ==> Pushed(st).entries[k] < n)
    requires ValuesOf(st.values, Pushed(st).entries) == rs
    ensures Open(LineStep(st, x, n), n + 1, n, Fresh(x), 0, rs)
  {
    var r := LineStep(st, x, n);
    assert r.entries == Pushed(st).entries;
    assert r.entries[..|r.entries|] == r.entries;
    ValuesOfUpdate(st.values, r.entries, n, Fresh(x));
  }

  /** The functions over a block, one line longer. */
  lemma Snoc(body: seq<Line>, x: Line)
    ensures (body + [x])[..|body|] == body
    ensures LoneMarkers(body + [x]) == LoneMarkers(body) + if x.LoneMarker? then 1 else 0
    ensures LastTitle(body + [x]) == if x.Title? then Some(|body|) else LastTitle(body)
  {
    assert (body + [x])[..|body|] == body;
  }

  /** A block's record, one line longer. */
  lemma FilledSnoc(title: Line, body: seq<Line>, x: Line)
    requires title.Title?
    ensures x.Description? ==>
      var d := Filled(title, body).description;
      Filled(title, body + [x]) == Filled(title, body).(description := if |d| > 0 then d + [Space] + x.text else x.text)
    ensures x.Place? ==>
      Filled(title, body + [x]) == Filled(title, body).(location := x.location, distance := x.distance)
    ensures !x.Description? && !x.Place? ==> Filled(title, body + [x]) == Filled(title, body)
  {
    assert (body + [x])[..|body|] == body;
    assert LastPlace(body + [x]) == if x.Place? then (x.location, x.distance) else LastPlace(body);
    if x.Description? {
      JoinSpaceSnoc(Descriptions(body), x.text);
    } else {
      assert Descriptions(body + [x]) == Descriptions(body) + [];
      assert Descriptions(body) + [] == Descriptions(body);
    }
  }

  /** Slices of xs + [x] around an earlier title t. */
  lemma SnocSlices(xs: seq<Line>, x: Line, t: nat)
    requires t < |xs|
    ensures (xs + [x])[t] == xs[t] && (xs + [x])[..t] == xs[..t]
    ensures (xs + [x])[t + 1..] == xs[t + 1..] + [x]
  {
  }

  /** Appending a description: one space when the description so far is
      non-empty, none otherwise. */
  lemma JoinSpaceSnoc(ds: seq<Str>, d: Str)
    requires forall k :: 0 <= k < |ds| ==> |ds[k]| > 0
    ensures JoinSpace(ds + [d]) == if |JoinSpace(ds)| > 0 then JoinSpace(ds) + [Space] + d else d
  {
    if ds == [] {
      assert ds + [d] == [d];
    } else {
      JoinSnoc(ds, d, [Space]);
      JoinHead(ds, [Space]);
    }
  }

  /** A join is at least as long as its first part. */
  lemma {:induction false} JoinHead(parts: seq<Str>, sep: Str)
    requires |parts| >= 1
    ensures |Join(parts, sep)| >= |parts[0]|
  {
    if |parts| > 1 {
      JoinHead(parts[..|parts| - 1], sep);
      JoinSnoc(parts[..|parts| - 1], parts[|parts| - 1], sep);
      assert parts[..|parts| - 1] + [parts[|parts| - 1]] == parts;
    }
  }

  lemma ValuesOfUpdate(values: map<nat, Activity>, es: seq<nat>, o: nat, v: Activity)
    requires forall k :: 0 <= k < |es| ==> es[k] in values && es[k] != o
    ensures ValuesOf(values[o := v], es) == ValuesOf(values, es)
  {
  }

  /** The state after a title line, the |xs|-th. */
  lemma TracksTitle(xs: seq<Line>, st: ParseState, x: Line)
    requires Tracks(xs, st) && x.Title?
    ensures Tracks(xs + [x], LineStep(st, x, |xs|))
  {
    BlockTitled(xs, x);
    match LastTitle(xs)
    case None =>
      assert Reference(xs) == [];
      OpenTitled(st, |xs|, x, []);
    case Some(t) =>
      OpenFlushed(st, |xs|, t, Cur(xs), Pend(xs), Prior(xs));
      ReferenceOpen(xs);
      OpenTitled(st, |xs|, x, Reference(xs));
  }

  /** The state after a lone "**" line. */
  lemma TracksLone(xs: seq<Line>, st: ParseState, x: Line)
    requires Tracks(xs, st) && x.LoneMarker?
    ensures Tracks(xs + [x], LineStep(st, x, |xs|))
  {
    Snoc(xs, x);
    if LastTitle(xs).Some? {
      BlockSnoc(xs, x);
      OpenPushed(st, |xs|, LastTitle(xs).value, Cur(xs), Pend(xs), Prior(xs));
    }
  }

  /** The state after a description or pin line with a record current. */
  lemma TracksUpdated(xs: seq<Line>, st: ParseState, x: Line)
    requires Tracks(xs, st) && st.current.Some? && (x.Description? || x.Place?)
    ensures Tracks(xs + [x], LineStep(st, x, |xs|))
  {
    var t := st.current.value;
    assert LastTitle(xs) == Some(t);
    BlockSnoc(xs, x);
    var r := LineStep(st, x, |xs|);
    assert r == st.(values := st.values[t := Cur(xs + [x])]);
    OpenUpdated(st, |xs|, t, Cur(xs), Pend(xs), Prior(xs), Cur(xs + [x]));
  }

  /** The state after any other line: nothing changes. */
  lemma TracksUnchanged(xs: seq<Line>, st: ParseState, x: Line)
    requires Tracks(xs, st)
    requires x.Other? || ((x.Description? || x.Place?) && st.current.None?)
    ensures Tracks(xs + [x], LineStep(st, x, |xs|))
  {
    assert LineStep(st, x, |xs|) == st;
    Snoc(xs, x);
    if LastTitle(xs).Some? {
      BlockSnoc(xs, x);
    }
  }

  /** One line of the pass keeps the state tracking the reference. */
  lemma TracksStep(xs: seq<Line>, st: ParseState, x: Line)
    requires Tracks(xs, st)
    ensures Tracks(xs + [x], LineStep(st, x, |xs|))
  {
    if x.Title? {
      TracksTitle(xs, st, x);
    } else if x.LoneMarker? {
      TracksLone(xs, st, x);
    } else if x.Other? || st.current.None? {
      TracksUnchanged(xs, st, x);
    } else {
      TracksUpdated(xs, st, x);
    }
  }

  /** sts are the states of the pass over the classified lines xs. */
  ghost predicate Passes(xs: seq<Line>, sts: seq<ParseState>) {
    && |sts| == |xs| + 1
    && sts[0] == ParseState([], map[], None)
    && forall i :: 0 <= i < |xs| ==> Consistent(sts[i], i) && sts[i + 1] == LineStep(sts[i], xs[i], i)
  }

  /** The state after the first n lines tracks the reference of those lines. */
  lemma {:induction false} PassTracks(xs: seq<Line>, sts: seq<ParseState>, n: nat)
    requires Passes(xs, sts) && n <= |xs|
    ensures Tracks(xs[..n], sts[n])
  {
    if n == 0 {
      assert xs[..0] == [];
      assert LastTitle([]) == None;
    } else {
      PassTracks(xs, sts, n - 1);
      assert xs[..n] == xs[..n - 1] + [xs[n - 1]];
      TracksStep(xs[..n - 1], sts[n - 1], xs[n - 1]);
    }
  }

  /** The states of parseActivities' loop are those of the pass over the
      classified lines. */
  lemma StatesPass(lines: seq<Str>)
    ensures Passes(Classified(lines), States(lines))
  {
    var sts := States(lines);
    forall i | 0 <= i < |lines|
      ensures sts[i + 1] == LineStep(sts[i], Classified(lines)[i], i)
    {
      StepOfClassified(sts[i], Trim(lines[i]), i);
    }
  }

  /** parseActivities returns exactly the reference records of the
      classified lines of its input. */
  lemma ParseMatchesReference(text: Str)
    ensures Parse(text) == Reference(Classified(Lines(text)))
  {
    var lines := Lines(text);
    var xs := Classified(lines);
    StatesPass(lines);
    PassTracks(xs, States(lines), |lines|);
    StatesEnd(lines);
    assert xs[..|lines|] == xs;
    TracksFlushed(xs, Final(text));
  }

  /** The records a state that tracks the classified lines returns, once its
      current record is pushed, are the reference records of those lines. */
  lemma TracksFlushed(xs: seq<Line>, st: ParseState)
    requires Tracks(xs, st)
    ensures forall k :: 0 <= k < |Flushed(st)| ==> Flushed(st)[k] in st.values
    ensures ValuesOf(st.values, Flushed(st)) == Reference(xs)
  {
    if LastTitle(xs).None? {
      assert Flushed(st) == [];
    } else {
      OpenFlushed(st, |xs|, LastTitle(xs).value, Cur(xs), Pend(xs), Prior(xs));
      ReferenceOpen(xs);
    }
  }

  // ---------------------------------------------------------------------
  // Consequences.
  // ---------------------------------------------------------------------

  /** The title lines among xs, in order. */
  function Titles(xs: seq<Line>): (ts: seq<Line>)
    decreases |xs|
    ensures forall k :: 0 <= k < |ts| ==> ts[k].Title?
    ensures |ts| == 0 <==> LastTitle(xs).None?
  {
    match LastTitle(xs)
    case None => []
    case Some(t) => Titles(xs[..t]) + [xs[t]]
  }

  /** A block without lone "**" lines. */
  lemma {:induction false} NoLoneMarkers(body: seq<Line>)
    requires forall j :: 0 <= j < |body| ==> !body[j].LoneMarker?
    ensures LoneMarkers(body) == 0
  {
    if body != [] {
      NoLoneMarkers(body[..|body| - 1]);
    }
  }

  /** The reference is empty exactly when no line is a title line. */
  lemma ReferenceEmpty(xs: seq<Line>)
    ensures Reference(xs) == [] <==> forall j :: 0 <= j < |xs| ==> !xs[j].Title?
  {
    if LastTitle(xs).Some? {
      ReferenceOpen(xs);
    }
  }

  /** Without lone "**" lines there is one record per title line, in the
      order of the title lines, each with that line's emoji and its title
      wrapped in strong tags. */
  lemma {:induction false} ReferenceTitles(xs: seq<Line>)
    requires forall j :: 0 <= j < |xs| ==> !xs[j].LoneMarker?
    ensures |Reference(xs)| == |Titles(xs)|
    ensures forall k :: 0 <= k < |Titles(xs)| ==>
      Reference(xs)[k].emoji == Titles(xs)[k].emoji &&
      Reference(xs)[k].title == StrongOpen + Titles(xs)[k].name + StrongClose
    decreases |xs|
  {
    match LastTitle(xs)
    case None =>
    case Some(t) =>
      ReferenceTitles(xs[..t]);
      NoLoneMarkers(xs[t + 1..]);
      assert Reference(xs) == Reference(xs[..t]) + [Filled(xs[t], xs[t + 1..])];
  }

  /** parseActivities returns no record exactly when no trimmed line is a
      title line. */
  lemma ParseEmpty(text: Str)
    ensures Parse(text) == [] <==>
      forall i :: 0 <= i < |Lines(text)| ==> !Classify(Trim(Lines(text)[i])).Title?
  {
    ParseMatchesReference(text);
    ReferenceEmpty(Classified(Lines(text)));
  }

  /** A text none of whose trimmed lines contains "**" gives no record. */
  lemma NoMarkerNoRecords(text: Str)
    requires forall i :: 0 <= i < |Lines(text)| ==> !Contains(Trim(Lines(text)[i]), Marker)
    ensures Parse(text) == []
  {
    ParseEmpty(text);
  }

  /** Without lone "**" lines, parseActivities returns one record per title
      line, in order, with the title line's emoji and strong-wrapped title. */
  lemma ParseTitles(text: Str)
    requires forall i :: 0 <= i < |Lines(text)| ==> !Classify(Trim(Lines(text)[i])).LoneMarker?
    ensures var ts := Titles(Classified(Lines(text)));
      && |Parse(text)| == |ts|
      && forall k :: 0 <= k < |ts| ==>
           Parse(text)[k].emoji == ts[k].emoji && Parse(text)[k].title == StrongOpen + ts[k].name + StrongClose
  {
    ParseMatchesReference(text);
    ReferenceTitles(Classified(Lines(text)));
  }
}
