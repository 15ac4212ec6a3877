/** parseActivities: the single forward pass that turns the model's free text
    into activity records, one line at a time, with one mutable "current
    record" slot. */
module ActivityParser {
  import opened Text

  /** "**", the bold delimiter that marks a title line. */
  const Marker: Str := [0x2A, 0x2A]
  /** U+1F4CD ROUND PUSHPIN, which JavaScript stores as a surrogate pair. */
  const Pin: Str := [0xD83D, 0xDCCD]
  /** U+2022 BULLET, between the venue and the distance. */
  const Bullet: CodeUnit := 0x2022
  /** A description line must be longer than this many code units. */
  const MinDescriptionLength := 20
  const DistanceNotSpecified: Str := Units("Distance not specified")
  const StrongOpen: Str := Units("<strong>")
  const StrongClose: Str := Units("</strong>")

  lemma PinIsRoundPushpin()
    ensures Utf16("\U{1F4CD}") == Pin
  {
  }

  /** The value of an activity record: what the service hands to its caller. */
  datatype Activity = Activity(emoji: Str, title: Str, description: Str, location: Str, distance: Str)

  /** An activity record as the parser builds it: an object whose fields the
      later lines of its block update in place. */
  class ActivityRecord {
    var emoji: Str
    var title: Str
    var description: Str
    var location: Str
    var distance: Str

    constructor (emoji: Str, title: Str)
      ensures Value() == Activity(emoji, title, [], [], [])
    {
      this.emoji := emoji;
      this.title := title;
      description := [];
      location := [];
      distance := [];
    }

    function Value(): Activity
      reads this
    {
      Activity(emoji, title, description, location, distance)
    }
  }

  // ---------------------------------------------------------------------
  // The location regular expression  /📍\s*(.*?)\s*•\s*(.*)/  (no flags),
  // matched as JavaScript does: on code units, at the leftmost position
  // where it succeeds, with \s* greedy, (.*?) lazy and (.*) greedy, and `.`
  // never matching a line terminator.  Backtracking into the first \s*
  // cannot produce a match the greedy choice missed: starting the lazy group
  // earlier only adds group ends whose following \s* runs to the same
  // non-white character, which the greedy attempt already tried.
  // ---------------------------------------------------------------------

  /** .* from j: the end of the longest run of non-line-terminators. */
  function LineEnd(s: Str, j: nat): (r: nat)
    requires j <= |s|
    decreases |s| - j
    ensures j <= r <= |s|
    ensures forall k :: j <= k < r ==> !IsLineTerminator(s[k])
    ensures r == |s| || IsLineTerminator(s[r])
  {
    if j == |s| || IsLineTerminator(s[j]) then j else LineEnd(s, j + 1)
  }

  /** (.*?)\s*• with the lazy group ending at b or later: the first end, tried
      in increasing order, after which \s* stops at a bullet. */
  function LazyGroupEnd(s: Str, b: nat): (r: Option<nat>)
    requires b <= |s|
    decreases |s| - b
    ensures r.Some? ==> b <= r.value <= |s| && SkipWhite(s, r.value) < |s| && s[SkipWhite(s, r.value)] == Bullet
    ensures r.Some? ==> forall k :: b <= k < r.value ==> !IsLineTerminator(s[k])
  {
    var k := SkipWhite(s, b);
    if k < |s| && s[k] == Bullet then Some(b)
    else if b < |s| && !IsLineTerminator(s[b]) then LazyGroupEnd(s, b + 1)
    else None
  }

  /** The match attempt at position p, where the pin glyph stands: the two
      captured groups, or None if the attempt fails. */
  function MatchAt(s: Str, p: nat): (r: Option<(Str, Str)>)
    requires p + |Pin| <= |s|
    ensures r.Some? ==> Bullet in s
  {
    var a := SkipWhite(s, p + |Pin|);
    match LazyGroupEnd(s, a)
    case None => None
    case Some(b) =>
      var k := SkipWhite(s, b);
      var d := SkipWhite(s, k + 1);
      Some((s[a..b], s[d..LineEnd(s, d)]))
  }

  /** String.prototype.match with the location pattern, trying positions from
      `from` onwards: the groups of the leftmost match. */
  function PinRegexMatch(s: Str, from: nat): (r: Option<(Str, Str)>)
    decreases |s| - from
    ensures r.Some? ==> Bullet in s
  {
    if from + |Pin| > |s| then None
    else if s[from..from + |Pin|] == Pin && MatchAt(s, from).Some? then MatchAt(s, from)
    else PinRegexMatch(s, from + 1)
  }

  /** The location and distance a pin line sets (claudeService.js:87-101):
      the two groups of the regular expression, trimmed; failing a match, the
      line without its glyph, split once more on the bullet if it has one,
      else the whole remainder and the "not specified" placeholder. */
  function PinFields(line: Str): (r: (Str, Str))
    ensures Bullet !in line ==> r == (Trim(ReplaceFirst(line, Pin, [])), DistanceNotSpecified)
  {
    match PinRegexMatch(line, 0)
    case Some((venue, dist)) => (Trim(venue), Trim(dist))
    case None =>
      var cleanLine := Trim(ReplaceFirst(line, Pin, []));
      if Contains(cleanLine, [Bullet]) then
        ContainsUnit(cleanLine, Bullet);
        TrimKeeps(ReplaceFirst(line, Pin, []), Bullet);
        SplitOnContains(cleanLine, [Bullet]);
        var pieces := SplitOn(cleanLine, [Bullet]);
        (Trim(pieces[0]), Trim(pieces[1]))
      else (cleanLine, DistanceNotSpecified)
  }

  /** A pin line without a bullet: the location is the trimmed remainder
      after the glyph, the distance exactly "Distance not specified". */
  lemma PinLineWithoutBullet(line: Str)
    requires StartsWith(line, Pin) && Bullet !in line
    ensures PinFields(line) == (Trim(line[|Pin|..]), DistanceNotSpecified)
  {
    assert ReplaceFirst(line, Pin, []) == line[|Pin|..];
  }

  /** SkipWhite stops at the first character that is not white space. */
  lemma SkipWhiteStopsAt(s: Str, j: nat, k: nat)
    requires j <= k < |s| && !IsWhite(s[k])
    ensures SkipWhite(s, j) <= k
  {
  }

  /** Scanning lazily from b, with no line terminator before the first bullet
      at k, the group ends where the following white space reaches k. */
  lemma {:induction false} LazyGroupFindsBullet(s: Str, b: nat, k: nat)
    requires b <= k < |s| && s[k] == Bullet
    requires forall j :: b <= j < k ==> s[j] != Bullet && !IsLineTerminator(s[j])
    ensures LazyGroupEnd(s, b).Some?
    ensures LazyGroupEnd(s, b).value <= k && SkipWhite(s, LazyGroupEnd(s, b).value) == k
    decreases k - b
  {
    var e := SkipWhite(s, b);
    SkipWhiteStopsAt(s, b, k);
    if e < |s| && s[e] == Bullet {
      assert e == k;
    } else {
      assert b < k;
      LazyGroupFindsBullet(s, b + 1, k);
    }
  }

  /** The tail group (.*) runs to the end of a line without terminators. */
  lemma LineEndWithoutTerminator(s: Str, d: nat)
    requires d <= |s|
    requires forall j :: 0 <= j < |s| ==> !IsLineTerminator(s[j])
    ensures LineEnd(s, d) == |s|
  {
  }

  /** A match attempt at the start of a line that begins with the glyph is
      the leftmost match, when it succeeds. */
  lemma LeftmostAtStart(line: Str)
    requires StartsWith(line, Pin) && MatchAt(line, 0).Some?
    ensures PinRegexMatch(line, 0) == MatchAt(line, 0)
  {
    assert line[0..|Pin|] == Pin;
  }

  /** The match at the glyph of a pin line with a bullet and no line
      terminator: the group ends lazily where white space before the first
      bullet begins, and the tail group runs to the end of the line. */
  lemma {:induction false} PinMatchGroups(line: Str, k: nat) returns (a: nat, b: nat, d: nat)
    requires StartsWith(line, Pin)
    requires forall j :: 0 <= j < |line| ==> !IsLineTerminator(line[j])
    requires k < |line| && line[k] == Bullet
    requires forall j :: 0 <= j < k ==> line[j] != Bullet
    ensures |Pin| <= a <= b <= k < d <= |line|
    ensures PinRegexMatch(line, 0) == Some((line[a..b], line[d..]))
    ensures AllWhite(line[|Pin|..a]) && AllWhite(line[b..k]) && AllWhite(line[k + 1..d])
  {
    assert line[0] == Pin[0] && line[1] == Pin[1];
    a := SkipWhite(line, |Pin|);
    SkipWhiteStopsAt(line, |Pin|, k);
    LazyGroupFindsBullet(line, a, k);
    b := LazyGroupEnd(line, a).value;
    d := SkipWhite(line, k + 1);
    LineEndWithoutTerminator(line, d);
    MatchAtOf(line, a, b, k, d);
    LeftmostAtStart(line);
    WhiteRun(line, |Pin|, a);
    WhiteRun(line, b, k);
    WhiteRun(line, k + 1, d);
  }

  /** The groups of the attempt at the start of a line, from the positions
      where each part of the pattern stops. */
  lemma MatchAtOf(line: Str, a: nat, b: nat, k: nat, d: nat)
    requires |Pin| <= |line| && k < |line|
    requires SkipWhite(line, |Pin|) == a && LazyGroupEnd(line, a) == Some(b)
    requires SkipWhite(line, b) == k && SkipWhite(line, k + 1) == d && LineEnd(line, d) == |line|
    ensures MatchAt(line, 0) == Some((line[a..b], line[d..]))
  {
    assert SkipWhite(line, 0 + |Pin|) == a;
    assert line[d..LineEnd(line, d)] == line[d..];
  }

  lemma PinFieldsOfMatch(line: Str, venue: Str, dist: Str)
    requires PinRegexMatch(line, 0) == Some((venue, dist))
    ensures PinFields(line) == (Trim(venue), Trim(dist))
  {
  }

  /** A pin line with a bullet and no line terminator: the location is the
      trimmed text between the glyph and the first bullet, the distance the
      trimmed text after that bullet. */
  lemma PinLineWithBullet(line: Str, k: nat)
    requires StartsWith(line, Pin)
    requires forall j :: 0 <= j < |line| ==> !IsLineTerminator(line[j])
    requires k < |line| && line[k] == Bullet
    requires forall j :: 0 <= j < k ==> line[j] != Bullet
    ensures |Pin| <= k
    ensures PinFields(line) == (Trim(line[|Pin|..k]), Trim(line[k + 1..]))
  {
    var a, b, d := PinMatchGroups(line, k);
    PinFieldsOfMatch(line, line[a..b], line[d..]);
    TrimmedGroups(line, k, a, b, d);
  }

  /** The white space around the groups disappears when they are trimmed. */
  lemma TrimmedGroups(line: Str, k: nat, a: nat, b: nat, d: nat)
    requires |Pin| <= a <= b <= k < d <= |line|
    requires AllWhite(line[|Pin|..a]) && AllWhite(line[b..k]) && AllWhite(line[k + 1..d])
    ensures Trim(line[a..b]) == Trim(line[|Pin|..k])
    ensures Trim(line[d..]) == Trim(line[k + 1..])
  {
    TrimmedVenue(line, k, a, b);
    TrimmedDistance(line, k, d);
  }

  lemma TrimmedVenue(line: Str, k: nat, a: nat, b: nat)
    requires |Pin| <= a <= b <= k <= |line|
    requires AllWhite(line[|Pin|..a]) && AllWhite(line[b..k])
    ensures Trim(line[a..b]) == Trim(line[|Pin|..k])
  {
    AdjacentSlices(line, |Pin|, a, b, k);
    TrimIgnoresPadding(line[|Pin|..a], line[a..b], line[b..k]);
  }

  lemma TrimmedDistance(line: Str, k: nat, d: nat)
    requires k < d <= |line|
    requires AllWhite(line[k + 1..d])
    ensures Trim(line[d..]) == Trim(line[k + 1..])
  {
    AdjacentSlices2(line, k + 1, d, |line|);
    assert line[d..|line|] == line[d..] && line[k + 1..|line|] == line[k + 1..];
    TrimIgnoresLeadingWhite(line[k + 1..d], line[d..]);
  }

  // ---------------------------------------------------------------------
  // The pass over the lines, as a function of values.  A record's identity
  // is the index of the title line that created it (its origin); `entries`
  // lists the origins of the records pushed so far, `values` the current
  // value of every record, so that a record pushed twice shows its final
  // value at both positions, as the shared object does in the source.
  // ---------------------------------------------------------------------

  datatype ParseState = ParseState(entries: seq<nat>, values: map<nat, Activity>, current: Option<nat>)

  /** Every origin the state mentions has a value, and all were created by
      lines before line n. */
  ghost predicate Consistent(st: ParseState, n: nat) {
    && (forall k :: 0 <= k < |st.entries| ==> st.entries[k] in st.values)
    && (st.current.Some? ==> st.current.value in st.values)
    && (forall o :: o in st.values ==> o < n)
  }

  /** The record a title line opens, from its split on "**". */
  function Opened(parts: seq<Str>): Activity
    requires |parts| >= 2
  {
    Activity(Trim(parts[0]), StrongOpen + Trim(parts[1]) + StrongClose, [], [], [])
  }

  /** The record of origin c with `line` joined to its description: with one
      space if the description is non-empty, else as the description. */
  function Described(st: ParseState, c: nat, line: Str): (r: ParseState)
    requires c in st.values
    ensures r.entries == st.entries && r.current == st.current && r.values.Keys == st.values.Keys
    ensures forall o :: o in st.values && o != c ==> r.values[o] == st.values[o]
    ensures r.values[c].(description := st.values[c].description) == st.values[c]
  {
    var rec := st.values[c];
    var description := if |rec.description| > 0 then rec.description + [Space] + line else line;
    st.(values := st.values[c := rec.(description := description)])
  }

  /** The record of origin c with the location and distance of a pin line. */
  function Located(st: ParseState, c: nat, line: Str): (r: ParseState)
    requires c in st.values
    ensures r.entries == st.entries && r.current == st.current && r.values.Keys == st.values.Keys
    ensures forall o :: o in st.values && o != c ==> r.values[o] == st.values[o]
    ensures r.values[c].(location := st.values[c].location, distance := st.values[c].distance) == st.values[c]
  {
    var fields := PinFields(line);
    Placed(st, c, fields.0, fields.1)
  }

  /** The record of origin c with the given location and distance. */
  function Placed(st: ParseState, c: nat, location: Str, distance: Str): (r: ParseState)
    requires c in st.values
    ensures r.entries == st.entries && r.current == st.current && r.values.Keys == st.values.Keys
    ensures forall o :: o in st.values && o != c ==> r.values[o] == st.values[o]
    ensures r.values[c] == st.values[c].(location := location, distance := distance)
  {
    st.(values := st.values[c := st.values[c].(location := location, distance := distance)])
  }

  /** The current record, if any, appended to the pushed ones. */
  function Pushed(st: ParseState): (r: ParseState)
    ensures r.values == st.values && r.current == st.current
    ensures st.current.Some? ==> r.entries == st.entries + [st.current.value]
    ensures st.current.None? ==> r == st
  {
    if st.current.Some? then st.(entries := st.entries + [st.current.value]) else st
  }

  /** The title branch: push the current record, if any, and open a new one
      as the i-th line's record if the line splits into at least 3 parts. */
  function Titled(st: ParseState, line: Str, i: nat): (r: ParseState)
    requires Consistent(st, i)
    ensures Consistent(r, i + 1)
  {
    var pushed := Pushed(st);
    var parts := SplitOn(line, Marker);
    if |parts| >= 3 then pushed.(values := pushed.values[i := Opened(parts)], current := Some(i))
    else pushed
  }

  /** One iteration of the loop of claudeService.js:51-104 on the trimmed
      line `line`, the i-th of the text. */
  function Step(st: ParseState, line: Str, i: nat): (r: ParseState)
    requires Consistent(st, i)
    ensures Consistent(r, i + 1)
  {
    if Contains(line, Marker) && |line| > 0 then Titled(st, line, i)
    else if st.current.Some? && |line| > 0 && !StartsWith(line, Pin)
            && !Contains(line, Marker) && |line| > MinDescriptionLength then
      Described(st, st.current.value, line)
    else if st.current.Some? && StartsWith(line, Pin) then
      Located(st, st.current.value, line)
    else st
  }

  /** The state after the first n lines. */
  function Run(lines: seq<Str>, n: nat): (st: ParseState)
    requires n <= |lines|
    ensures Consistent(st, n)
  {
    if n == 0 then ParseState([], map[], None)
    else Step(Run(lines, n - 1), Trim(lines[n - 1]), n - 1)
  }

  /** The state after each prefix of the lines, one step apart. */
  ghost function States(lines: seq<Str>): (r: seq<ParseState>)
    ensures |r| == |lines| + 1
    ensures r[0] == ParseState([], map[], None)
    ensures forall i :: 0 <= i < |lines| ==> Consistent(r[i], i) && r[i + 1] == Step(r[i], Trim(lines[i]), i)
  {
    seq(|lines| + 1, i requires 0 <= i <= |lines| => Run(lines, i))
  }

  lemma StatesEnd(lines: seq<Str>)
    ensures States(lines)[|lines|] == Run(lines, |lines|)
  {
  }

  /** responseText.split('\n') */
  function Lines(text: Str): seq<Str> {
    SplitOn(text, [LineFeed])
  }

  /** The state at the end of the text. */
  function Final(text: Str): (st: ParseState)
    ensures Consistent(st, |Lines(text)|)
  {
    Run(Lines(text), |Lines(text)|)
  }

  /** The pushes of the state, then the closing push of claudeService.js:107-109. */
  function Flushed(st: ParseState): seq<nat> {
    st.entries + if st.current.Some? then [st.current.value] else []
  }

  /** The origin of each record the parser returns. */
  function Origins(text: Str): seq<nat> {
    Flushed(Final(text))
  }

  function ValuesOf(values: map<nat, Activity>, origins: seq<nat>): (r: seq<Activity>)
    requires forall k :: 0 <= k < |origins| ==> origins[k] in values
    ensures |r| == |origins|
    ensures forall k :: 0 <= k < |r| ==> r[k] == values[origins[k]]
  {
    seq(|origins|, k requires 0 <= k < |origins| => values[origins[k]])
  }

  /** The values parseActivities returns for text. */
  function Parse(text: Str): (r: seq<Activity>)
    ensures |r| == |Origins(text)|
  {
    var st := Final(text);
    ValuesOf(st.values, Flushed(st))
  }

  /** The heap of the method mirrors the state: objs gives the object of
      each origin, distinct origins have distinct objects, and every object
      holds the value its origin has in the state. */
  ghost predicate Mirrors(st: ParseState, objs: map<nat, ActivityRecord>,
                          activities: seq<ActivityRecord>, current: ActivityRecord?)
    reads objs.Values
  {
    && Links(st, objs, activities, current)
    && (forall o :: o in objs ==> objs[o].Value() == st.values[o])
  }

  /** The part of Mirrors that does not look into the objects. */
  ghost predicate Links(st: ParseState, objs: map<nat, ActivityRecord>,
                        activities: seq<ActivityRecord>, current: ActivityRecord?)
  {
    && objs.Keys == st.values.Keys
    && |activities| == |st.entries|
    && (forall k :: 0 <= k < |activities| ==> st.entries[k] in objs && activities[k] == objs[st.entries[k]])
    && (if st.current.Some? then st.current.value in objs && current == objs[st.current.value]
        else current == null)
    && (forall o1, o2 :: o1 in objs && o2 in objs && objs[o1] == objs[o2] ==> o1 == o2)
  }

  /** Pushing the current object mirrors pushing the current origin. */
  lemma MirrorsPushed(st: ParseState, objs: map<nat, ActivityRecord>,
                      activities: seq<ActivityRecord>, current: ActivityRecord?)
    requires Mirrors(st, objs, activities, current)
    ensures Mirrors(Pushed(st), objs, activities + if current != null then [current] else [], current)
  {
  }

  /** What the returned objects show once the state is mirrored: their
      values in order, and the same object exactly at the same origin. */
  lemma MirroredResult(st: ParseState, objs: map<nat, ActivityRecord>,
                       activities: seq<ActivityRecord>, current: ActivityRecord?)
    requires Mirrors(Pushed(st), objs, activities, current)
    ensures |activities| == |Flushed(st)|
    ensures forall k :: 0 <= k < |activities| ==> activities[k].Value() == st.values[Flushed(st)[k]]
    ensures forall j, k :: 0 <= j < |activities| && 0 <= k < |activities| ==>
              (activities[j] == activities[k] <==> Flushed(st)[j] == Flushed(st)[k])
  {
  }

  /** A new object for a new origin keeps the heap mirrored. */
  lemma MirrorsOpened(st: ParseState, objs: map<nat, ActivityRecord>, activities: seq<ActivityRecord>,
                      current: ActivityRecord?, i: nat, c: ActivityRecord, v: Activity)
    requires Mirrors(st, objs, activities, current)
    requires i !in objs && c !in objs.Values && c.Value() == v
    ensures Mirrors(st.(values := st.values[i := v], current := Some(i)), objs[i := c], activities, c)
  {
  }

  /** Changing the object of origin c to value v keeps the heap mirrored,
      provided every other object kept its value. */
  lemma MirrorsUpdated(st: ParseState, objs: map<nat, ActivityRecord>, activities: seq<ActivityRecord>,
                       current: ActivityRecord?, c: nat, v: Activity)
    requires Links(st, objs, activities, current)
    requires c in objs && objs[c].Value() == v
    requires forall o :: o in objs && o != c ==> objs[o].Value() == st.values[o]
    ensures Mirrors(st.(values := st.values[c := v]), objs, activities, current)
  {
  }

  /** The title branch on objects (claudeService.js:55-75): push the
      current record, if any, and open a new one if the line has a title. */
  method OpenRecord(line: Str, i: nat, ghost st: ParseState, ghost objs: map<nat, ActivityRecord>,
                    activities: seq<ActivityRecord>, current: ActivityRecord?)
    returns (activities': seq<ActivityRecord>, current': ActivityRecord?, ghost objs': map<nat, ActivityRecord>)
    requires Consistent(st, i)
    requires Mirrors(st, objs, activities, current)
    ensures Mirrors(Titled(st, line, i), objs', activities', current')
    ensures current' != null ==> current' == current || fresh(current')
  {
    MirrorsPushed(st, objs, activities, current);
    activities', current', objs' := activities, current, objs;
    if current != null {
      activities' := activities + [current];
    }
    var parts := SplitOn(line, Marker);
    if |parts| >= 3 {
      var emojiPart := Trim(parts[0]);
      var titlePart := Trim(parts[1]);
      current' := new ActivityRecord(emojiPart, StrongOpen + titlePart + StrongClose);
      MirrorsOpened(Pushed(st), objs, activities', current, i, current', Opened(parts));
      objs' := objs[i := current'];
    }
  }

  /** The description branch on objects (claudeService.js:77-83): the line
      joins the current record's description in place. */
  method AppendDescription(line: Str, ghost st: ParseState, ghost objs: map<nat, ActivityRecord>,
                           activities: seq<ActivityRecord>, current: ActivityRecord)
    requires Mirrors(st, objs, activities, current) && st.current.Some?
    modifies current
    ensures Mirrors(Described(st, st.current.value, line), objs, activities, current)
  {
    if |current.description| > 0 {
      current.description := current.description + [Space] + line;
    } else {
      current.description := line;
    }
    MirrorsUpdated(st, objs, activities, current, st.current.value, Described(st, st.current.value, line).values[st.current.value]);
  }

  /** The location branch on objects (claudeService.js:86-102): the pin
      line sets the current record's location and distance in place. */
  method SetLocation(line: Str, ghost st: ParseState, ghost objs: map<nat, ActivityRecord>,
                     activities: seq<ActivityRecord>, current: ActivityRecord)
    requires Mirrors(st, objs, activities, current) && st.current.Some?
    modifies current
    ensures Mirrors(Located(st, st.current.value, line), objs, activities, current)
  {
    var locationMatch := PinRegexMatch(line, 0);
    if locationMatch.Some? {
      current.location := Trim(locationMatch.value.0);
      current.distance := Trim(locationMatch.value.1);
    } else {
      var cleanLine := Trim(ReplaceFirst(line, Pin, []));
      if Contains(cleanLine, [Bullet]) {
        SplitOnContains(cleanLine, [Bullet]);
        var pieces := SplitOn(cleanLine, [Bullet]);
        current.location := Trim(pieces[0]);
        current.distance := Trim(pieces[1]);
      } else {
        current.location := cleanLine;
        current.distance := DistanceNotSpecified;
      }
    }
    MirrorsUpdated(st, objs, activities, current, st.current.value, Located(st, st.current.value, line).values[st.current.value]);
  }

  /** One line of the loop of claudeService.js:51-104, on objects. */
  method ParseLine(line: Str, i: nat, ghost st: ParseState, ghost objs: map<nat, ActivityRecord>,
                   activities: seq<ActivityRecord>, current: ActivityRecord?)
    returns (activities': seq<ActivityRecord>, current': ActivityRecord?, ghost objs': map<nat, ActivityRecord>)
    requires Consistent(st, i)
    requires Mirrors(st, objs, activities, current)
    modifies current
    ensures Mirrors(Step(st, line, i), objs', activities', current')
    ensures current' != null ==> current' == current || fresh(current')
  {
    activities', current', objs' := activities, current, objs;
    if Contains(line, Marker) && |line| > 0 {
      activities', current', objs' := OpenRecord(line, i, st, objs, activities, current);
    } else if current != null && |line| > 0 && !StartsWith(line, Pin)
              && !Contains(line, Marker) && |line| > MinDescriptionLength {
      AppendDescription(line, st, objs, activities, current);
    } else if current != null && StartsWith(line, Pin) {
      SetLocation(line, st, objs, activities, current);
    }
  }

  /** parseActivities (claudeService.js:45-112). The records returned have
      the values Parse describes, and two positions hold the same object
      exactly when they come from the same title line. */
  method ParseActivities(responseText: Str) returns (activities: seq<ActivityRecord>)
    ensures |activities| == |Parse(responseText)|
    ensures forall k :: 0 <= k < |activities| ==> activities[k].Value() == Parse(responseText)[k]
    ensures forall j, k :: 0 <= j < |activities| && 0 <= k < |activities| ==>
              (activities[j] == activities[k] <==> Origins(responseText)[j] == Origins(responseText)[k])
  {
    activities := [];
    var lines := SplitOn(responseText, [LineFeed]);
    var current: ActivityRecord? := null;
    ghost var states := States(lines);
    ghost var st := states[0];
    ghost var objs: map<nat, ActivityRecord> := map[];
    for i := 0 to |lines|
      invariant st == states[i]
      invariant Mirrors(st, objs, activities, current)
      invariant current != null ==> fresh(current)
    {
      var line := Trim(lines[i]);
      activities, current, objs := ParseLine(line, i, st, objs, activities, current);
      st := Step(st, line, i);
    }
    StatesEnd(lines);
    assert st == Final(responseText);
    MirrorsPushed(st, objs, activities, current);
    if current != null {
      activities := activities + [current];
    }
    MirroredResult(st, objs, activities, current);
    assert Parse(responseText) == ValuesOf(st.values, Flushed(st));
  }
}
