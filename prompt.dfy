/** The prompt of claudeService.js:8-43: one template literal into which the
    five search criteria are interpolated, each twice, first in the
    "Family Details" list and then in the "Search Strategy" steps.  The
    template's fixed text is a sequence of literal fragments: the opening
    paragraph and the "Family Details" heading, then the words on each
    interpolation's own line. */
module Prompt {
  import opened Text

  /** The opening paragraph and the heading of the criteria list. */
  const Intro: Str := Role + Task + Heading
  const Role: Str := Units("You are a family activity finder assistant. ")
  const Task: Str := Units("Help parents discover perfect ") + Units("activities for their families based ")
    + Units("on their specific criteria.")
  const Heading: Str := Units("\n\n**Family Details:**\n")

  /** The text before each interpolation point, and after the last. */
  const Location: Str := Units("- Location: ")
  const KidsAges: Str := Units("\n- Kids Ages: ")
  const Availability: Str := Units("\n- Availability: ")
  const MaximumDistance: Str := Units("\n- Maximum Distance: ")
  const AdditionalPreferences: Str := Units("\n- Additional Preferences: ")
  const SearchIn: Str := Units("\n1. Search for family activities, ") + Units("events, and attractions in ")
  const LookForAges: Str := Units("\n2. Look for activities ") + Units("appropriate for ages ")
  const FocusOn: Str := Units("\n3. Focus on activities ") + Units("available during ")
  const ConsiderThe: Str := Units("\n4. Consider the ")
  const TravelLimitation: Str := Units(" travel limitation\n5. Include ")
  const InCriteria: Str := Units(" in your search criteria")

  /** The fragments of the template, in order. */
  const Fragments: seq<Str> :=
    [Intro + Location, KidsAges, Availability, MaximumDistance, AdditionalPreferences,
     SearchIn, LookForAges, FocusOn, ConsiderThe, TravelLimitation, InCriteria]

  /** fs[0] + vs[0] + fs[1] + vs[1] + ... + fs[|vs|]. */
  function Interleave(fs: seq<Str>, vs: seq<Str>): Str
    requires |fs| == |vs| + 1
  {
    if vs == [] then fs[0] else fs[0] + vs[0] + Interleave(fs[1..], vs[1..])
  }

  /** The total length of a sequence of texts. */
  function TotalLength(ss: seq<Str>): nat {
    if ss == [] then 0 else |ss[0]| + TotalLength(ss[1..])
  }

  /** Where vs[k] starts in Interleave(fs, vs): after the first k + 1
      fragments and the first k values. */
  function Offset(fs: seq<Str>, vs: seq<Str>, k: nat): nat
    requires k < |vs| && |fs| == |vs| + 1
  {
    TotalLength(fs[..k + 1]) + TotalLength(vs[..k])
  }

  /** The values interpolated: the five criteria, twice. */
  function Values(city: Str, ages: Str, availability: Str, distance: Str, preferences: Str): (vs: seq<Str>)
    ensures |vs| == |Fragments| - 1
  {
    [city, ages, availability, distance, preferences, city, ages, availability, distance, preferences]
  }

  /** buildPrompt(city, ages, availability, distance, preferences): the
      template literal, fragments and criteria in turn. */
  function BuildPrompt(city: Str, ages: Str, availability: Str, distance: Str, preferences: Str): (p: Str)
    ensures |p| == TotalLength(Fragments) + 2 * (|city| + |ages| + |availability| + |distance| + |preferences|)
    ensures StartsWith(p, Intro + Location + city + KidsAges + ages)
  {
    var vs := Values(city, ages, availability, distance, preferences);
    var p := Interleave(Fragments, vs);
    InterleaveLength(Fragments, vs);
    TotalLengthValues(city, ages, availability, distance, preferences);
    PromptStart(vs, p);
    p
  }

  lemma TotalLengthValues(city: Str, ages: Str, availability: Str, distance: Str, preferences: Str)
    ensures TotalLength(Values(city, ages, availability, distance, preferences))
         == 2 * (|city| + |ages| + |availability| + |distance| + |preferences|)
  {
    var five := [city, ages, availability, distance, preferences];
    assert Values(city, ages, availability, distance, preferences) == five + five;
    TotalLengthConcat(five, five);
    TotalLengthCons(city, [ages, availability, distance, preferences]);
    TotalLengthCons(ages, [availability, distance, preferences]);
    TotalLengthCons(availability, [distance, preferences]);
    TotalLengthCons(distance, [preferences]);
    TotalLengthCons(preferences, []);
  }

  lemma TotalLengthCons(x: Str, xs: seq<Str>)
    ensures TotalLength([x] + xs) == |x| + TotalLength(xs)
  {
    assert ([x] + xs)[1..] == xs;
  }

  lemma {:induction false} TotalLengthConcat(a: seq<Str>, b: seq<Str>)
    ensures TotalLength(a + b) == TotalLength(a) + TotalLength(b)
  {
    if a == [] {
      assert a + b == b;
    } else {
      TotalLengthConcat(a[1..], b);
      assert (a + b)[1..] == a[1..] + b;
      assert (a + b)[0] == a[0];
    }
  }

  /** The first two fragments and values of an interleaving. */
  lemma InterleaveTwo(fs: seq<Str>, vs: seq<Str>)
    requires |fs| == |vs| + 1 && |vs| >= 2
    ensures Interleave(fs, vs) == (fs[0] + vs[0] + fs[1] + vs[1]) + Interleave(fs[2..], vs[2..])
  {
    assert fs[1..][1..] == fs[2..] && vs[1..][1..] == vs[2..];
  }

  lemma StartsWithConcat(a: Str, b: Str)
    ensures StartsWith(a + b, a)
  {
    assert (a + b)[..|a|] == a;
  }

  lemma PromptStart(vs: seq<Str>, p: Str)
    requires |vs| == |Fragments| - 1 && p == Interleave(Fragments, vs)
    ensures StartsWith(p, Intro + Location + vs[0] + KidsAges + vs[1])
  {
    InterleaveTwo(Fragments, vs);
    StartsWithConcat(Intro + Location + vs[0] + KidsAges + vs[1], Interleave(Fragments[2..], vs[2..]));
  }

  /** The interleaving is as long as its fragments and values together. */
  lemma {:induction false} InterleaveLength(fs: seq<Str>, vs: seq<Str>)
    requires |fs| == |vs| + 1
    ensures |Interleave(fs, vs)| == TotalLength(fs) + TotalLength(vs)
  {
    if vs != [] {
      InterleaveLength(fs[1..], vs[1..]);
    } else {
      assert fs[1..] == [];
    }
  }

  /** Each value stands in the interleaving at its offset. */
  lemma {:induction false} InterleaveSlot(fs: seq<Str>, vs: seq<Str>, k: nat)
    requires |fs| == |vs| + 1 && k < |vs|
    ensures OccursAt(Interleave(fs, vs), vs[k], Offset(fs, vs, k))
  {
    var s := Interleave(fs, vs);
    var head := fs[0] + vs[0];
    if k == 0 {
      assert fs[..1] == [fs[0]] && vs[..0] == [];
      assert TotalLength([fs[0]]) == |fs[0]|;
      assert s[|fs[0]|..|fs[0]| + |vs[0]|] == vs[0];
    } else {
      InterleaveSlot(fs[1..], vs[1..], k - 1);
      assert fs[..k + 1] == [fs[0]] + fs[1..][..k];
      assert vs[..k] == [vs[0]] + vs[1..][..k - 1];
      var o := Offset(fs[1..], vs[1..], k - 1);
      assert Offset(fs, vs, k) == |head| + o;
      var rest := Interleave(fs[1..], vs[1..]);
      assert s == head + rest;
      assert s[|head| + o..|head| + o + |vs[k]|] == rest[o..o + |vs[k]|];
    }
  }

  /** Each criterion stands twice in the prompt, at its two offsets. */
  lemma PromptSlots(city: Str, ages: Str, availability: Str, distance: Str, preferences: Str, k: nat)
    requires k < 10
    ensures var vs := Values(city, ages, availability, distance, preferences);
      && vs[k] == vs[k % 5]
      && OccursAt(BuildPrompt(city, ages, availability, distance, preferences), vs[k], Offset(Fragments, vs, k))
  {
    var vs := Values(city, ages, availability, distance, preferences);
    if k < 5 {
      assert k % 5 == k;
    } else {
      assert k % 5 == k - 5;
    }
    InterleaveSlot(Fragments, vs, k);
  }
}
