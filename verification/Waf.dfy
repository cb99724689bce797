/** The cache of firewall instances (proxy/internal/middleware/waf.go). An instance is known by the
    directive text it was built from; Coraza itself is a library. */
module Waf {
  import opened Text
  import opened Ordering

  const DETECTION := "detection"
  const ENFORCEMENT := "enforcement"

  // ---------------------------------------------------------------- rules

  /** The trimmed rules that are not blank, in the given order. */
  function Kept(rules: seq<string>): seq<string> {
    if rules == [] then []
    else
      var rule := TrimSpace(rules[|rules| - 1]);
      Kept(rules[..|rules| - 1]) + (if rule == "" then [] else [rule])
  }

  function NormalizeRules(rules: seq<string>): seq<string> { SortBy(Self, Kept(rules)) }

  /** normalizeRules: trim, drop blanks, sort. */
  method RunNormalizeRules(rules: seq<string>) returns (out: seq<string>)
    ensures out == NormalizeRules(rules)
  {
    out := [];
    for i := 0 to |rules|
      invariant out == Kept(rules[..i])
    {
      assert rules[..i + 1][..i] == rules[..i];
      var rule := TrimSpace(rules[i]);
      if rule == "" { continue; }
      out := out + [rule];
    }
    assert rules[..|rules|] == rules;
    out := SortBy(Self, out);
  }

  lemma {:induction false} KeptCount(rules: seq<string>, rule: string)
    ensures multiset(Kept(rules))[rule] == (if rule == "" then 0 else Occurrences(rules, rule))
  {
    if rules != [] { KeptCount(rules[..|rules| - 1], rule); }
  }

  /** How many of the given rules are this one once trimmed. */
  function Occurrences(rules: seq<string>, rule: string): nat {
    if rules == [] then 0
    else Occurrences(rules[..|rules| - 1], rule) + (if TrimSpace(rules[|rules| - 1]) == rule then 1 else 0)
  }

  /** A list of strings is determined by being sorted and by its elements with their counts. */
  lemma {:induction false} SortedStringsUnique(s: seq<string>, t: seq<string>)
    requires SortedBy(Self, s) && SortedBy(Self, t) && multiset(s) == multiset(t)
    ensures s == t
  {
    assert |s| == |multiset(s)| == |multiset(t)| == |t|;
    if s != [] {
      SameFirst(s, t);
      TailCounts(s);
      TailCounts(t);
      hide Leq;
      SortedStringsUnique(s[1..], t[1..]);
      assert s == [s[0]] + s[1..] && t == [t[0]] + t[1..];
    }
  }

  lemma TailCounts(s: seq<string>)
    requires s != []
    ensures multiset(s[1..]) == multiset(s) - multiset{s[0]}
    ensures SortedBy(Self, s) ==> SortedBy(Self, s[1..])
  {
    hide Leq;
    assert s == [s[0]] + s[1..];
  }

  lemma SameFirst(s: seq<string>, t: seq<string>)
    requires SortedBy(Self, s) && SortedBy(Self, t) && multiset(s) == multiset(t) && s != [] && t != []
    ensures s[0] == t[0]
  {
    hide Leq;
    assert s[0] in multiset(t) && t[0] in multiset(s);
    LeastFirst(s, t[0]);
    LeastFirst(t, s[0]);
    LeqAntisymmetric(s[0], t[0]);
  }

  lemma LeastFirst(s: seq<string>, x: string)
    requires SortedBy(Self, s) && x in s
    ensures Leq(s[0], x)
  {
    var i :| 0 <= i < |s| && s[i] == x;
    if i == 0 { LeqReflexive(x); } else { assert Leq(Self(s[0]), Self(s[i])); }
  }

  /** Reordering rules, padding them with white space or adding blank ones changes nothing: only how
      often each non-blank trimmed rule occurs matters. */
  lemma NormalizeIgnoresOrder(a: seq<string>, b: seq<string>)
    requires forall rule :: rule != "" ==> Occurrences(a, rule) == Occurrences(b, rule)
    ensures NormalizeRules(a) == NormalizeRules(b)
  {
    hide Occurrences, TrimSpace, Trimmed;
    forall rule ensures multiset(Kept(a))[rule] == multiset(Kept(b))[rule] {
      KeptCount(a, rule);
      KeptCount(b, rule);
    }
    assert multiset(Kept(a)) == multiset(Kept(b));
    SortProperties(Self, Kept(a));
    SortProperties(Self, Kept(b));
    SortedStringsUnique(NormalizeRules(a), NormalizeRules(b));
  }

  /** A permutation keeps the occurrences, and so does a blank rule anywhere. */
  lemma {:induction false} OccurrencesConcat(a: seq<string>, b: seq<string>, rule: string)
    ensures Occurrences(a + b, rule) == Occurrences(a, rule) + Occurrences(b, rule)
  {
    hide TrimSpace, Trimmed;
    if b == [] {
      assert a + b == a;
    } else {
      OccurrencesConcat(a, b[..|b| - 1], rule);
      assert (a + b)[..|a + b| - 1] == a + b[..|b| - 1];
    }
  }

  lemma RemovedAt(b: seq<string>, i: nat)
    requires i < |b|
    ensures multiset(b[..i] + b[i + 1..]) == multiset(b) - multiset{b[i]}
  {
    assert b == b[..i] + [b[i]] + b[i + 1..];
  }

  lemma OccurrencesWithout(b: seq<string>, i: nat, rule: string)
    requires i < |b|
    ensures Occurrences(b, rule) == Occurrences(b[..i] + b[i + 1..], rule) + Occurrences([b[i]], rule)
  {
    hide Occurrences;
    assert b == b[..i] + [b[i]] + b[i + 1..];
    OccurrencesConcat(b[..i], b[i + 1..], rule);
    OccurrencesConcat(b[..i], [b[i]], rule);
    OccurrencesConcat(b[..i] + [b[i]], b[i + 1..], rule);
  }

  lemma {:induction false} OccurrencesPermute(a: seq<string>, b: seq<string>, rule: string)
    requires multiset(a) == multiset(b)
    ensures Occurrences(a, rule) == Occurrences(b, rule)
    decreases |a|
  {
    hide Occurrences;
    assert |a| == |multiset(a)| == |multiset(b)| == |b|;
    if a == [] {
      assert a == b;
    } else {
      assert a[0] in multiset(b);
      var i :| 0 <= i < |b| && b[i] == a[0];
      RemovedAt(a, 0);
      RemovedAt(b, i);
      OccurrencesWithout(a, 0, rule);
      OccurrencesWithout(b, i, rule);
      OccurrencesPermute(a[..0] + a[1..], b[..i] + b[i + 1..], rule);
    }
  }

  lemma ReorderedOrPadded(rules: seq<string>, other: seq<string>, blank: string, tail: seq<string>)
    requires multiset(rules) == multiset(other) && TrimSpace(blank) == ""
    ensures NormalizeRules(rules) == NormalizeRules(other)
    ensures NormalizeRules(rules + [blank] + tail) == NormalizeRules(rules + tail)
  {
    hide NormalizeRules;
    forall rule | rule != "" ensures Occurrences(rules, rule) == Occurrences(other, rule) {
      OccurrencesPermute(rules, other, rule);
    }
    NormalizeIgnoresOrder(rules, other);
    forall rule | rule != "" ensures Occurrences(rules + [blank] + tail, rule) == Occurrences(rules + tail, rule) {
      OccurrencesConcat(rules + [blank], tail, rule);
      OccurrencesConcat(rules, [blank], rule);
      OccurrencesConcat(rules, tail, rule);
      assert Occurrences([blank], rule) == 0;
    }
    NormalizeIgnoresOrder(rules + [blank] + tail, rules + tail);
  }

  predicate Clean(rules: seq<string>) { forall r :: r in rules ==> r != "" && Trimmed(r) }

  lemma {:induction false} KeptIsClean(rules: seq<string>)
    ensures Clean(Kept(rules))
  {
    hide Trimmed;
    if rules != [] {
      KeptIsClean(rules[..|rules| - 1]);
      forall r | r in Kept(rules) ensures r != "" && Trimmed(r) {
        assert r in Kept(rules[..|rules| - 1]) || r == TrimSpace(rules[|rules| - 1]);
      }
    }
  }

  lemma {:induction false} CleanIsKept(rules: seq<string>)
    requires Clean(rules)
    ensures Kept(rules) == rules
  {
    hide Trimmed, TrimSpace;
    if rules != [] {
      var front, last := rules[..|rules| - 1], rules[|rules| - 1];
      CleanIsKept(front);
      assert last in rules && TrimSpace(last) == last;
      assert rules == front + [last];
    }
  }

  lemma NormalizedIsClean(rules: seq<string>)
    ensures Clean(NormalizeRules(rules)) && SortedBy(Self, NormalizeRules(rules))
  {
    hide Leq, Trimmed, SortBy;
    KeptIsClean(rules);
    SortProperties(Self, Kept(rules));
    forall r | r in NormalizeRules(rules) ensures r in Kept(rules) { assert r in multiset(Kept(rules)); }
  }

  /** buildCorazaWAF normalises rules that are already normalised: nothing changes. */
  lemma NormalizeIdempotent(rules: seq<string>)
    ensures NormalizeRules(NormalizeRules(rules)) == NormalizeRules(rules)
  {
    hide Leq, Clean, SortBy, Kept;
    var sorted := NormalizeRules(rules);
    NormalizedIsClean(rules);
    CleanIsKept(sorted);
    SortProperties(Self, sorted);
    SortedStringsUnique(SortBy(Self, sorted), sorted);
  }

  // ---------------------------------------------------------------- key and text

  function NormalizeMode(mode: string): string {
    if ToLower(TrimSpace(mode)) == ENFORCEMENT then ENFORCEMENT else DETECTION
  }

  function Header(mode: string): string {
    "SecRuleEngine " + (if NormalizeMode(mode) == DETECTION then "DetectionOnly" else "On") + "\n"
  }

  function Lines(rules: seq<string>): string {
    if rules == [] then "" else rules[0] + "\n" + Lines(rules[1..])
  }

  /** The text from which an instance for these rules is built. */
  function DirectiveText(mode: string, rules: seq<string>): string { Header(mode) + Lines(NormalizeRules(rules)) }

  function Key(mode: string, rules: seq<string>): string { mode + "\n" + Join(rules, '\n') }

  /** The text that belongs to a key. */
  function TextOfKey(key: string): string { Header(Cut(key, '\n').0) + Cut(key, '\n').1 + "\n" }

  /** The text switches blocking on exactly in enforcement mode, in any case and with white space
      around it; in every other mode it only detects. */
  lemma HeaderExactly(mode: string, rules: seq<string>)
    ensures "SecRuleEngine On\n" <= DirectiveText(mode, rules) <==> ToLower(TrimSpace(mode)) == "enforcement"
    ensures "SecRuleEngine DetectionOnly\n" <= DirectiveText(mode, rules) <==>
            ToLower(TrimSpace(mode)) != "enforcement"
  {
    hide TrimSpace, NormalizeRules, Lines;
    assert |"enforcement"| != |"detection"|;
    var on, detect := "SecRuleEngine On\n", "SecRuleEngine DetectionOnly\n";
    assert on[14] == 'O' && detect[14] == 'D';
    var text := DirectiveText(mode, rules);
    assert Header(mode) == if NormalizeMode(mode) == DETECTION then detect else on;
    assert text[14] == Header(mode)[14];
  }

  lemma {:induction false} LinesAreJoined(rules: seq<string>)
    requires rules != []
    ensures Lines(rules) == Join(rules, '\n') + "\n"
  {
    if |rules| > 1 {
      LinesAreJoined(rules[1..]);
      assert "\n" == ['\n'];
    }
  }

  /** The directive builder's loop. */
  method WriteLines(header: string, rules: seq<string>) returns (text: string)
    ensures text == header + Lines(rules)
  {
    text := header;
    for i := 0 to |rules|
      invariant text + Lines(rules[i..]) == header + Lines(rules)
    {
      LinesStep(text, rules, i);
      text := text + rules[i] + "\n";
    }
  }

  lemma LinesStep(text: string, rules: seq<string>, i: nat)
    requires i < |rules|
    ensures text + Lines(rules[i..]) == (text + rules[i] + "\n") + Lines(rules[i + 1..])
  {
    assert rules[i..][1..] == rules[i + 1..];
    assert Lines(rules[i..]) == rules[i] + "\n" + Lines(rules[i + 1..]);
  }

  /** The key determines the text, even when rules contain newlines. */
  lemma KeyDeterminesText(mode: string, rules: seq<string>)
    requires '\n' !in mode && NormalizeRules(rules) != []
    ensures TextOfKey(Key(mode, NormalizeRules(rules))) == DirectiveText(mode, rules)
  {
    hide Header, NormalizeRules;
    var sorted := NormalizeRules(rules);
    LinesAreJoined(sorted);
    assert mode + "\n" + Join(sorted, '\n') == mode + ['\n'] + Join(sorted, '\n');
    CutAfter(mode, '\n', Join(sorted, '\n'));
    assert Header(mode) + Join(sorted, '\n') + "\n" == Header(mode) + (Join(sorted, '\n') + "\n");
  }

  /** Two requests in the same mode share a key exactly when they have the same text. */
  lemma KeysAreTexts(mode: string, a: seq<string>, b: seq<string>)
    requires NormalizeRules(a) != [] && NormalizeRules(b) != []
    ensures Key(mode, NormalizeRules(a)) == Key(mode, NormalizeRules(b)) <==>
              DirectiveText(mode, a) == DirectiveText(mode, b)
  {
    hide Header, NormalizeRules, Join, Lines;
    LinesAreJoined(NormalizeRules(a));
    LinesAreJoined(NormalizeRules(b));
    SamePrefix(mode + "\n", Join(NormalizeRules(a), '\n'), Join(NormalizeRules(b), '\n'));
    SamePrefix(Header(mode), Lines(NormalizeRules(a)), Lines(NormalizeRules(b)));
    SameSuffix(Join(NormalizeRules(a), '\n'), Join(NormalizeRules(b), '\n'), "\n");
  }

  lemma SamePrefix(p: string, a: string, b: string)
    ensures p + a == p + b <==> a == b
  {
    assert (p + a)[|p|..] == a && (p + b)[|p|..] == b;
  }

  lemma SameSuffix(a: string, b: string, z: string)
    ensures a + z == b + z <==> a == b
  {
    if a + z == b + z {
      assert |a + z| == |b + z|;
      assert (a + z)[..|a|] == a && (b + z)[..|b|] == b;
    }
  }

  // ---------------------------------------------------------------- concurrent calls

  /** An instance with the text it was built from; the serial tells instances apart. */
  datatype Instance = Instance(serial: nat, text: string)

  /** Where a call of wafForRules is: the lock is free between these phases. */
  datatype Call =
    | Looking(mode: string, rules: seq<string>)
    | Building(mode: string, rules: seq<string>)
    | Installing(mode: string, rules: seq<string>, built: Instance)
    | Done(mode: string, rules: seq<string>, answer: Option<Instance>)

  datatype State = State(cache: map<string, Instance>, calls: map<nat, Call>, made: nat)

  datatype Event =
    | Enter(id: nat, mode: string, rules: seq<string>)
    | LookUp(id: nat)
    | Build(id: nat, ok: bool)
    | Install(id: nat)

  /** NewWAF builds one instance without rules for each mode. */
  function Base(): map<string, Instance> {
    map[DETECTION := Instance(0, DirectiveText(DETECTION, [])),
        ENFORCEMENT := Instance(1, DirectiveText(ENFORCEMENT, []))]
  }

  const INITIAL := State(map[], map[], 2)

  function KeyOf(c: Call): string { Key(c.mode, NormalizeRules(c.rules)) }

  function LookedUp(cache: map<string, Instance>, mode: string, rules: seq<string>): Call {
    if mode !in Base() then Done(mode, rules, None)
    else if NormalizeRules(rules) == [] then Done(mode, rules, Some(Base()[mode]))
    else if Key(mode, NormalizeRules(rules)) in cache
    then Done(mode, rules, Some(cache[Key(mode, NormalizeRules(rules))]))
    else Building(mode, rules)
  }

  function Next(s: State, e: Event): State {
    match e
    case Enter(id, mode, rules) => if id in s.calls then s else s.(calls := s.calls[id := Looking(mode, rules)])
    case LookUp(id) =>
      if id !in s.calls || !s.calls[id].Looking? then s
      else s.(calls := s.calls[id := LookedUp(s.cache, s.calls[id].mode, s.calls[id].rules)])
    case Build(id, ok) =>
      if id !in s.calls || !s.calls[id].Building? then s
      else
        var c := s.calls[id];
        var built := Instance(s.made, DirectiveText(c.mode, NormalizeRules(c.rules)));
        var next := if ok then Installing(c.mode, c.rules, built) else Done(c.mode, c.rules, None);
        s.(calls := s.calls[id := next], made := s.made + 1)
    case Install(id) =>
      if id !in s.calls || !s.calls[id].Installing? then s
      else
        var c := s.calls[id];
        var cache := if KeyOf(c) in s.cache then s.cache else s.cache[KeyOf(c) := c.built];
        s.(cache := cache, calls := s.calls[id := Done(c.mode, c.rules, Some(cache[KeyOf(c)]))])
  }

  function Run(s: State, events: seq<Event>): State {
    if events == [] then s else Next(Run(s, events[..|events| - 1]), events[|events| - 1])
  }

  predicate CallSound(cache: map<string, Instance>, c: Call) {
    match c
    case Looking(_, _) => true
    case Building(mode, rules) => mode in Base() && NormalizeRules(rules) != []
    case Installing(mode, rules, built) =>
      mode in Base() && NormalizeRules(rules) != [] && built.text == DirectiveText(mode, rules)
    case Done(mode, rules, answer) =>
      answer.None? ||
      (answer.value.text == DirectiveText(mode, rules) &&
       (if NormalizeRules(rules) == [] then mode in Base() && answer.value == Base()[mode]
        else KeyOf(c) in cache && cache[KeyOf(c)] == answer.value))
  }

  ghost predicate Inv(s: State) {
    && (forall key :: key in s.cache ==> s.cache[key].text == TextOfKey(key))
    && (forall id :: id in s.calls ==> CallSound(s.cache, s.calls[id]))
  }

  /** Entries are only added. */
  ghost predicate Extends(before: map<string, Instance>, after: map<string, Instance>) {
    forall key :: key in before ==> key in after && after[key] == before[key]
  }

  lemma BaseModes(mode: string)
    requires mode in Base()
    ensures '\n' !in mode
  {
    hide DirectiveText;
  }

  lemma BaseText(mode: string, rules: seq<string>)
    requires mode in Base() && NormalizeRules(rules) == []
    ensures Base()[mode].text == DirectiveText(mode, rules)
  {
    assert NormalizeRules([]) == [];
    hide NormalizeRules, Header;
  }

  lemma RebuiltText(mode: string, rules: seq<string>)
    ensures DirectiveText(mode, NormalizeRules(rules)) == DirectiveText(mode, rules)
  {
    NormalizeIdempotent(rules);
  }

  lemma RequestFacts(mode: string, rules: seq<string>)
    ensures DirectiveText(mode, NormalizeRules(rules)) == DirectiveText(mode, rules)
    ensures mode in Base() && NormalizeRules(rules) == [] ==> Base()[mode].text == DirectiveText(mode, rules)
    ensures mode in Base() && NormalizeRules(rules) != [] ==>
              TextOfKey(Key(mode, NormalizeRules(rules))) == DirectiveText(mode, rules)
  {
    hide DirectiveText, TextOfKey, NormalizeRules, Base, Key;
    RebuiltText(mode, rules);
    if mode in Base() {
      BaseModes(mode);
      if NormalizeRules(rules) == [] { BaseText(mode, rules); } else { KeyDeterminesText(mode, rules); }
    }
  }

  /** The call that takes the step stays sound. */
  lemma StepSound(s: State, e: Event)
    requires Inv(s)
    ensures Extends(s.cache, Next(s, e).cache)
    ensures forall key :: key in Next(s, e).cache ==> Next(s, e).cache[key].text == TextOfKey(key)
    ensures e.id in Next(s, e).calls ==> CallSound(Next(s, e).cache, Next(s, e).calls[e.id])
  {
    hide DirectiveText, TextOfKey, NormalizeRules, Base, Key;
    if e.id in s.calls { RequestFacts(s.calls[e.id].mode, s.calls[e.id].rules); }
  }

  lemma NextKeepsInv(s: State, e: Event)
    requires Inv(s)
    ensures Inv(Next(s, e)) && Extends(s.cache, Next(s, e).cache)
  {
    hide DirectiveText, TextOfKey, NormalizeRules, Base, Key;
    StepSound(s, e);
  }

  lemma {:induction false} RunKeepsInv(events: seq<Event>)
    ensures Inv(Run(INITIAL, events))
  {
    hide CallSound, TextOfKey, Next;
    if events != [] {
      RunKeepsInv(events[..|events| - 1]);
      NextKeepsInv(Run(INITIAL, events[..|events| - 1]), events[|events| - 1]);
    }
  }

  /** A cached entry is never replaced, whatever calls follow. */
  lemma {:induction false} CacheOnlyGrows(events: seq<Event>, more: seq<Event>)
    ensures Extends(Run(INITIAL, events).cache, Run(INITIAL, events + more).cache)
  {
    hide Next, Inv;
    if more == [] {
      assert events + more == events;
    } else {
      var front := more[..|more| - 1];
      CacheOnlyGrows(events, front);
      RunKeepsInv(events + front);
      NextKeepsInv(Run(INITIAL, events + front), more[|more| - 1]);
      assert (events + more)[..|events + more| - 1] == events + front;
    }
  }

  /** In every interleaving of calls, an answer is built from exactly the text of the request's
      normalised rules; and two answers to requests whose rules agree up to order, white space and
      blank rules are the same instance. */
  lemma AnswersAreSound(events: seq<Event>, i: nat, j: nat)
    requires var calls := Run(INITIAL, events).calls;
             i in calls && j in calls && calls[i].Done? && calls[j].Done? && calls[i].answer.Some? &&
             calls[j].answer.Some?
    ensures var a := Run(INITIAL, events).calls[i]; var b := Run(INITIAL, events).calls[j];
            a.answer.value.text == DirectiveText(a.mode, a.rules) &&
            (a.mode == b.mode && NormalizeRules(a.rules) == NormalizeRules(b.rules) ==> a.answer == b.answer)
  {
    hide DirectiveText, TextOfKey, NormalizeRules, Base, Key, Run;
    RunKeepsInv(events);
    assert CallSound(Run(INITIAL, events).cache, Run(INITIAL, events).calls[i]);
    assert CallSound(Run(INITIAL, events).cache, Run(INITIAL, events).calls[j]);
  }

  class WAF {
    var cache: map<string, Instance>
    var made: nat

    constructor ()
      ensures cache == map[] && made == 2
    {
      cache, made := map[], 2;
    }

    /** buildCorazaWAF; Coraza may refuse the text. */
    method BuildInstance(mode: string, rules: seq<string>) returns (ok: bool, built: Instance)
      modifies this
      ensures cache == old(cache) && made == old(made) + 1
      ensures built == Instance(old(made), DirectiveText(mode, rules))
    {
      var sorted := RunNormalizeRules(rules);
      var text := WriteLines(Header(mode), sorted);
      ok := *;
      built := Instance(made, text);
      made := made + 1;
    }

    /** While the lock is free, other calls may install entries of their own. */
    method OthersInstall()
      requires forall key :: key in cache ==> cache[key].text == TextOfKey(key)
      modifies this`cache
      ensures forall key :: key in cache ==> cache[key].text == TextOfKey(key)
      ensures Extends(old(cache), cache)
    {
      hide TextOfKey;
      var calls :| calls >= 0;
      for i := 0 to calls
        invariant forall key :: key in cache ==> cache[key].text == TextOfKey(key)
        invariant Extends(old(cache), cache)
      {
        var key: string := *;
        var installed: Instance := *;
        if key !in cache && installed.text == TextOfKey(key) { cache := cache[key := installed]; }
      }
    }

    /** wafForRules; the lock is taken for the look-up and again for the installation. */
    method WafForRules(mode: string, rules: seq<string>) returns (answer: Option<Instance>)
      requires forall key :: key in cache ==> cache[key].text == TextOfKey(key)
      modifies this
      ensures forall key :: key in cache ==> cache[key].text == TextOfKey(key)
      ensures Extends(old(cache), cache)
      ensures answer.Some? ==> answer.value.text == DirectiveText(mode, rules)
      ensures answer.Some? ==> CallSound(cache, Done(mode, rules, answer))
    {
      hide DirectiveText, TextOfKey, NormalizeRules, Base, Key;
      RequestFacts(mode, rules);
      if mode !in Base() { return None; }
      var sorted := RunNormalizeRules(rules);
      if sorted == [] { return Some(Base()[mode]); }
      var key := Key(mode, sorted);
      OthersInstall();
      if key in cache { return Some(cache[key]); }
      OthersInstall();
      var ok, built := BuildInstance(mode, sorted);
      OthersInstall();
      if !ok { return None; }
      if key in cache { return Some(cache[key]); }
      cache := cache[key := built];
      return Some(built);
    }
  }
}
