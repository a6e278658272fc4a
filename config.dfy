/** The location rules and the startup validation of configInit: the rules come
    already decoded, and the loop fills in each rule's derived fields in place. */
module Config {
  import opened Wrappers

  /** A compiled regular expression, known by the pattern it was compiled from;
      what it matches and how it rewrites are left to the caller. */
  datatype Regex = Regex(source: string)

  /** The exported fields of locationConfiguration, as decoded from the JSON file. */
  datatype Settings = Settings(
    prefix: string,
    storageEndpoint: string,
    storageAccessKey: string,
    storageSecretAccessKey: string,
    storageBucketName: string,
    storageBucketLocation: string,
    storageUseSSL: bool,
    regExpMatch: string,
    regExpSub: string,
    expires: string,
    cacheControl: string,
    dropParams: bool)

  /** The unexported fields configInit derives: the compiled prefix, the
      compiled rewrite pattern (nil pointers are None) and the expiry duration
      in nanoseconds. */
  datatype Derived = Derived(prefix: Option<Regex>, translation: Option<Regex>, expires: int)

  /** The zero values the decoder leaves in the unexported fields. */
  const Unset := Derived(None, None, 0)

  datatype Location = Location(settings: Settings, derived: Derived)

  /** The library parsers configInit relies on: whether regexp.Compile accepts
      a pattern, and what time.ParseDuration makes of a string. */
  datatype Parsers = Parsers(compiles: string -> bool, parseDuration: string -> Option<int>)

  datatype Fault = BadPrefix | BadTranslation | BadExpires

  datatype InitError = NoLocations | RuleError(index: nat, fault: Fault)

  /** The rules as the decoder hands them over. */
  function Decoded(settings: seq<Settings>): (s: seq<Location>)
    ensures |s| == |settings|
    ensures forall j :: 0 <= j < |s| ==> s[j] == Location(settings[j], Unset)
  {
    seq(|settings|, j requires 0 <= j < |settings| => Location(settings[j], Unset))
  }

  /** regexp.Compile: a nil pointer when the pattern is refused. */
  function Compile(p: Parsers, pattern: string): (r: Option<Regex>)
    ensures r.Some? <==> p.compiles(pattern)
    ensures r.Some? ==> r.value.source == pattern
  {
    if p.compiles(pattern) then Some(Regex(pattern)) else None
  }

  /** time.ParseDuration: zero when the string is refused. */
  function Duration(p: Parsers, s: string): (d: int)
    ensures p.parseDuration(s).Some? ==> d == p.parseDuration(s).value
    ensures p.parseDuration(s).None? ==> d == 0
  {
    match p.parseDuration(s)
    case Some(v) => v
    case None => 0
  }

  /** A rule the loop accepts: its prefix compiles, its rewrite pattern (if
      any) compiles, and its expiry (if any) parses. */
  predicate RuleValid(s: Settings, p: Parsers) {
    p.compiles(s.prefix) &&
    (|s.regExpMatch| > 0 ==> p.compiles(s.regExpMatch)) &&
    (|s.expires| > 0 ==> p.parseDuration(s.expires).Some?)
  }

  /** What the request handler relies on in a rule: a compiled prefix, and a
      compiled rewrite pattern whenever one is configured. */
  predicate Ready(l: Location) {
    l.derived.prefix.Some? && (|l.settings.regExpMatch| > 0 ==> l.derived.translation.Some?)
  }

  predicate AllReady(rules: seq<Location>) {
    forall j :: 0 <= j < |rules| ==> Ready(rules[j])
  }

  /** The fault that stops the loop at this rule, if any, in the order the
      loop body checks them. */
  function FaultOf(s: Settings, p: Parsers): (f: Option<Fault>)
    ensures f.None? <==> RuleValid(s, p)
  {
    if !p.compiles(s.prefix) then Some(BadPrefix)
    else if |s.regExpMatch| > 0 && !p.compiles(s.regExpMatch) then Some(BadTranslation)
    else if |s.expires| > 0 && p.parseDuration(s.expires).None? then Some(BadExpires)
    else None
  }

  /** One pass of the loop body over a rule: the rule with its derived fields
      written up to and including the step that failed, if one did. */
  function InitRule(l: Location, p: Parsers): (r: Location)
    ensures r.settings == l.settings
    ensures r.derived.prefix == Compile(p, l.settings.prefix)
    ensures FaultOf(l.settings, p) == Some(BadPrefix) ==> r.derived.translation == l.derived.translation && r.derived.expires == l.derived.expires
    ensures FaultOf(l.settings, p) == Some(BadTranslation) ==> r.derived.translation == None && r.derived.expires == l.derived.expires
    ensures FaultOf(l.settings, p) != Some(BadPrefix) && |l.settings.regExpMatch| > 0 ==> r.derived.translation == Compile(p, l.settings.regExpMatch)
    ensures |l.settings.regExpMatch| == 0 ==> r.derived.translation == l.derived.translation
    ensures FaultOf(l.settings, p).None? || FaultOf(l.settings, p) == Some(BadExpires) ==>
      r.derived.expires == if |l.settings.expires| > 0 then Duration(p, l.settings.expires) else l.derived.expires
    ensures FaultOf(l.settings, p).None? ==> Ready(r)
  {
    var s := l.settings;
    var d := l.derived.(prefix := Compile(p, s.prefix));
    if d.prefix.None? then Location(s, d)
    else
      var d := if |s.regExpMatch| > 0 then d.(translation := Compile(p, s.regExpMatch)) else d;
      if |s.regExpMatch| > 0 && d.translation.None? then Location(s, d)
      else if |s.expires| > 0 then Location(s, d.(expires := Duration(p, s.expires)))
      else Location(s, d)
  }

  /** The loop from index i on: the rules afterwards and the error that stopped it. */
  function InitFrom(s: seq<Location>, i: nat, p: Parsers): (r: (seq<Location>, Option<InitError>))
    requires i <= |s|
    decreases |s| - i
  {
    if i == |s| then (s, None)
    else
      var s' := s[i := InitRule(s[i], p)];
      match FaultOf(s[i].settings, p)
      case Some(f) => (s', Some(RuleError(i, f)))
      case None => InitFrom(s', i + 1, p)
  }

  /** configInit after decoding: an empty list is refused, then the loop runs. */
  function ConfigInitSpec(s: seq<Location>, p: Parsers): (r: (seq<Location>, Option<InitError>))
  {
    if |s| < 1 then (s, Some(NoLocations)) else InitFrom(s, 0, p)
  }

  /** The loop from index i: rules before i are left alone; rules from i are
      processed in order up to the first invalid one, which is reported and
      written, and everything after it is left untouched. */
  lemma {:induction false} InitFromFacts(s: seq<Location>, i: nat, p: Parsers)
    requires i <= |s|
    ensures var (r, e) := InitFrom(s, i, p);
      |r| == |s| &&
      (forall j :: 0 <= j < i ==> r[j] == s[j]) &&
      (e.None? <==> forall j :: i <= j < |s| ==> RuleValid(s[j].settings, p)) &&
      (e.None? ==> forall j :: i <= j < |s| ==> r[j] == InitRule(s[j], p)) &&
      (e.Some? ==>
        e.value.RuleError? && i <= e.value.index < |s| &&
        Some(e.value.fault) == FaultOf(s[e.value.index].settings, p) &&
        (forall j :: i <= j < e.value.index ==> RuleValid(s[j].settings, p)) &&
        (forall j :: i <= j <= e.value.index ==> r[j] == InitRule(s[j], p)) &&
        (forall j :: e.value.index < j < |s| ==> r[j] == s[j]))
    decreases |s| - i
  {
    if i < |s| && FaultOf(s[i].settings, p).None? {
      var s' := s[i := InitRule(s[i], p)];
      assert forall j :: 0 <= j < |s| ==> s'[j].settings == s[j].settings;
      InitFromFacts(s', i + 1, p);
    }
  }

  /** An empty rule list is refused and nothing else happens. */
  lemma EmptyRejected(s: seq<Location>, p: Parsers)
    requires |s| == 0
    ensures ConfigInitSpec(s, p) == (s, Some(NoLocations))
  {
  }

  /** Validation succeeds exactly when the list is non-empty and every rule is valid. */
  lemma SucceedsIff(s: seq<Location>, p: Parsers)
    ensures ConfigInitSpec(s, p).1.None? <==>
      |s| > 0 && forall j :: 0 <= j < |s| ==> RuleValid(s[j].settings, p)
  {
    if |s| > 0 {
      InitFromFacts(s, 0, p);
    }
  }

  /** Validation keeps the length, the order and every exported field. */
  lemma SettingsKept(s: seq<Location>, p: Parsers)
    ensures |ConfigInitSpec(s, p).0| == |s|
    ensures forall j :: 0 <= j < |s| ==> ConfigInitSpec(s, p).0[j].settings == s[j].settings
  {
    if |s| > 0 {
      InitFromFacts(s, 0, p);
      var (r, e) := InitFrom(s, 0, p);
      forall j | 0 <= j < |s| ensures r[j].settings == s[j].settings {
        if e.Some? && e.value.index < j {
        } else {
          assert r[j] == InitRule(s[j], p);
        }
      }
    }
  }

  /** On success of a freshly decoded list: every prefix is compiled, the
      rewrite pattern is compiled exactly when one is configured, and the
      expiry is parsed when one is configured and stays zero otherwise; the
      handler's precondition holds of every rule. */
  lemma SuccessFillsDerived(settings: seq<Settings>, p: Parsers)
    requires ConfigInitSpec(Decoded(settings), p).1.None?
    ensures var r := ConfigInitSpec(Decoded(settings), p).0;
      AllReady(r) && |r| == |settings| &&
      forall j :: 0 <= j < |settings| ==>
        r[j].derived.prefix == Some(Regex(settings[j].prefix)) &&
        (r[j].derived.translation.Some? <==> |settings[j].regExpMatch| > 0) &&
        (|settings[j].regExpMatch| > 0 ==> r[j].derived.translation == Some(Regex(settings[j].regExpMatch))) &&
        r[j].derived.expires == (if |settings[j].expires| > 0 then Duration(p, settings[j].expires) else 0)
  {
    var s := Decoded(settings);
    InitFromFacts(s, 0, p);
    var r := InitFrom(s, 0, p).0;
    forall j | 0 <= j < |r|
      ensures Ready(r[j])
      ensures r[j].derived.prefix == Some(Regex(settings[j].prefix))
    {
      assert r[j] == InitRule(s[j], p);
      assert FaultOf(s[j].settings, p).None?;
    }
  }

  /** On failure at rule k: k is the lowest invalid rule, the fault names the
      first step of its loop body that failed, the rules before k are ready
      for the handler, and the rules after k are untouched. */
  lemma FirstFailureStops(s: seq<Location>, p: Parsers)
    requires |s| > 0 && ConfigInitSpec(s, p).1.Some?
    ensures var (r, e) := ConfigInitSpec(s, p);
      |r| == |s| && e.value.RuleError? && e.value.index < |s| &&
      !RuleValid(s[e.value.index].settings, p) &&
      Some(e.value.fault) == FaultOf(s[e.value.index].settings, p) &&
      (forall j :: 0 <= j < e.value.index ==> RuleValid(s[j].settings, p) && Ready(r[j])) &&
      (forall j :: e.value.index < j < |s| ==> r[j] == s[j])
  {
    InitFromFacts(s, 0, p);
    var (r, e) := InitFrom(s, 0, p);
    forall j | 0 <= j < e.value.index ensures Ready(r[j]) {
      assert r[j] == InitRule(s[j], p);
      assert FaultOf(s[j].settings, p).None?;
    }
  }

  /** The validation loop of configInit over the decoded rules, in place. */
  method ConfigInit(locations: array<Location>, p: Parsers) returns (err: Option<InitError>)
    modifies locations
    ensures (locations[..], err) == ConfigInitSpec(old(locations[..]), p)
  {
    if locations.Length < 1 {
      return Some(NoLocations);
    }
    for i := 0 to locations.Length
      invariant InitFrom(locations[..], i, p) == ConfigInitSpec(old(locations[..]), p)
    {
      ghost var before := locations[..];
      var loc := locations[i];
      var prefix := Compile(p, loc.settings.prefix);
      locations[i] := loc.(derived := loc.derived.(prefix := prefix));
      if prefix.None? {
        assert locations[..] == before[i := InitRule(before[i], p)];
        return Some(RuleError(i, BadPrefix));
      }
      if |loc.settings.regExpMatch| > 0 {
        var translation := Compile(p, loc.settings.regExpMatch);
        locations[i] := locations[i].(derived := locations[i].derived.(translation := translation));
        if translation.None? {
          assert locations[..] == before[i := InitRule(before[i], p)];
          return Some(RuleError(i, BadTranslation));
        }
      }
      if |loc.settings.expires| > 0 {
        var expires := Duration(p, loc.settings.expires);
        locations[i] := locations[i].(derived := locations[i].derived.(expires := expires));
        if p.parseDuration(loc.settings.expires).None? {
          assert locations[..] == before[i := InitRule(before[i], p)];
          return Some(RuleError(i, BadExpires));
        }
      }
      assert locations[..] == before[i := InitRule(before[i], p)];
    }
    return None;
  }
}
