/** The shared API description (shared/routes.ts): the paths, the event-creation input
    bounds and `buildUrl`, which fills `:key` placeholders in a path. */
module SharedRoutes {
  import opened Wrappers
  import opened Text

  const CreatePath: string := "/api/events"
  const JoinPath: string := "/api/events/join/:pin"
  const GetPath: string := "/api/events/:id"
  const StatsPath: string := "/api/events/:id/stats"

  /** The routes `api.events` declares. */
  const EventRouteNames: set<string> := {"create", "join", "get", "stats"}

  /** Bounds of `create.input.name`. */
  const NameMin: nat := 1
  const NameMax: nat := 100

  /** Whether `create.input` accepts the event name. */
  predicate ValidEventName(name: string) {
    NameMin <= |name| <= NameMax
  }

  /** A value of the `params` record: a string or an integer. */
  datatype ParamValue = Str(s: string) | Int(i: int)

  /** `String(value)`. */
  function ParamString(v: ParamValue): string {
    match v
    case Str(s) => s
    case Int(i) => IntToString(i)
  }

  // ------------------------------------------------------------ String.prototype.replace

  /** The text `replace` inserts for a string pattern: `$$` is `$`, `$&` the match,
      `` $` `` the text before it, `$'` the text after it; every other `$` is literal
      (a string pattern has no capture groups). */
  function Substitution(repl: string, matched: string, before: string, after: string): string
    decreases |repl|
  {
    if repl == [] then []
    else if repl[0] == '$' && |repl| >= 2 && repl[1] == '$' then
      "$" + Substitution(repl[2..], matched, before, after)
    else if repl[0] == '$' && |repl| >= 2 && repl[1] == '&' then
      matched + Substitution(repl[2..], matched, before, after)
    else if repl[0] == '$' && |repl| >= 2 && repl[1] == '`' then
      before + Substitution(repl[2..], matched, before, after)
    else if repl[0] == '$' && |repl| >= 2 && repl[1] == '\'' then
      after + Substitution(repl[2..], matched, before, after)
    else
      [repl[0]] + Substitution(repl[1..], matched, before, after)
  }

  /** Without a `$`, the replacement text is inserted as it is. */
  lemma {:induction false} SubstitutionPlain(repl: string, matched: string, before: string, after: string)
    requires '$' !in repl
    ensures Substitution(repl, matched, before, after) == repl
  {
    if repl != [] {
      assert repl[0] != '$';
      assert '$' !in repl[1..];
      SubstitutionPlain(repl[1..], matched, before, after);
    }
  }

  /** `s.replace(pat, repl)` with a string pattern: only the first occurrence changes. */
  function ReplaceFirst(s: string, pat: string, repl: string): (r: string)
    ensures IndexOf(s, pat).None? ==> r == s
    ensures IndexOf(s, pat).Some? ==>
      var i := IndexOf(s, pat).value;
      r == s[..i] + Substitution(repl, pat, s[..i], s[i + |pat|..]) + s[i + |pat|..]
  {
    match IndexOf(s, pat)
    case None => s
    case Some(i) => s[..i] + Substitution(repl, pat, s[..i], s[i + |pat|..]) + s[i + |pat|..]
  }

  // ------------------------------------------------------------ buildUrl

  /** One `forEach` step: replace the first `:key` if the url includes it. */
  function FillOne(url: string, key: string, value: ParamValue): string {
    if Includes(url, ":" + key) then ReplaceFirst(url, ":" + key, ParamString(value)) else url
  }

  /** The url after the steps for `entries`, in `Object.entries` order. */
  function Fill(path: string, entries: seq<(string, ParamValue)>): string {
    if entries == [] then path
    else
      var last := entries[|entries| - 1];
      FillOne(Fill(path, entries[..|entries| - 1]), last.0, last.1)
  }

  /** `buildUrl(path, params)`; `params` is `None` when undefined and otherwise lists
      the record's entries in `Object.entries` order. */
  method BuildUrl(path: string, params: Option<seq<(string, ParamValue)>>) returns (url: string)
    ensures params.None? ==> url == path
    ensures params.Some? ==> url == Fill(path, params.value)
  {
    url := path;
    if params.Some? {
      var entries := params.value;
      var i := 0;
      while i < |entries|
        invariant 0 <= i <= |entries|
        invariant url == Fill(path, entries[..i])
      {
        var (key, value) := entries[i];
        if Includes(url, ":" + key) {
          url := ReplaceFirst(url, ":" + key, ParamString(value));
        }
        assert entries[..i + 1][..i] == entries[..i];
        i := i + 1;
      }
      assert entries[..|entries|] == entries;
    }
  }

  /** With an empty record, the path comes back unchanged. */
  lemma FillNoEntries(path: string)
    ensures Fill(path, []) == path
  {
  }

  /** A key whose placeholder is absent leaves the url unchanged. */
  lemma FillOneAbsent(url: string, key: string, value: ParamValue)
    requires forall j :: !OccursAt(url, ":" + key, j)
    ensures FillOne(url, key, value) == url
  {
  }

  /** A key whose placeholder is present replaces its first occurrence, and only that
      one, by `String(value)` when the value holds no `$`. */
  lemma FillOneFirstOccurrence(url: string, key: string, value: ParamValue, i: nat)
    requires OccursAt(url, ":" + key, i)
    requires forall j :: 0 <= j < i ==> !OccursAt(url, ":" + key, j)
    requires '$' !in ParamString(value)
    ensures FillOne(url, key, value) == url[..i] + ParamString(value) + url[i + |key| + 1..]
  {
    var pat := ":" + key;
    var v := ParamString(value);
    assert |pat| == |key| + 1;
    IndexOfFromFirst(url, pat, 0, i);
    assert Includes(url, pat);
    var before, after := url[..i], url[i + |pat|..];
    SubstitutionPlain(v, pat, before, after);
    assert ReplaceFirst(url, pat, v) == before + v + after;
  }

  /** No placeholder starts before the first `:`. */
  lemma NoPlaceholderBefore(url: string, key: string, i: nat)
    requires i <= |url| && ':' !in url[..i]
    ensures forall j :: 0 <= j < i ==> !OccursAt(url, ":" + key, j)
  {
    forall j | 0 <= j < i ensures !OccursAt(url, ":" + key, j) {
      assert url[..i][j] == url[j];
      assert j + |key| + 1 <= |url| ==> url[j..j + |key| + 1][0] == url[j];
      assert (":" + key)[0] == ':';
    }
  }

  /** A url whose first `:` starts the placeholder of the one key given: that
      placeholder is replaced by `String(value)` when the value holds no `$`. */
  lemma FillSingle(p: string, key: string, rest: string, value: ParamValue)
    requires ':' !in p && '$' !in ParamString(value)
    ensures Fill(p + ":" + key + rest, [(key, value)]) == p + ParamString(value) + rest
  {
    var url := p + ":" + key + rest;
    assert [(key, value)][..0] == [];
    assert url[..|p|] == p;
    assert url[|p|..|p| + |key| + 1] == ":" + key;
    assert url[|p| + |key| + 1..] == rest;
    NoPlaceholderBefore(url, key, |p|);
    FillOneFirstOccurrence(url, key, value, |p|);
  }

  /** `buildUrl('/api/events/:id', {id})` is `'/api/events/'` followed by `String(id)`. */
  lemma GetPathFill(id: int)
    ensures Fill(GetPath, [("id", Int(id))]) == "/api/events/" + IntToString(id)
  {
    assert GetPath == "/api/events/" + ":" + "id" + "";
    var digits := if id < 0 then IntToString(id)[1..] else IntToString(id);
    assert IsDigit('$') == false;
    assert '$' !in digits;
    assert id < 0 ==> IntToString(id) == [IntToString(id)[0]] + digits;
    FillSingle("/api/events/", "id", "", Int(id));
    assert "/api/events/" + IntToString(id) + "" == "/api/events/" + IntToString(id);
  }

  /** Matching is by plain substring: key `id` also fills the front of `:idx`. */
  lemma PrefixMatch(p: string, value: string)
    requires ':' !in p && '$' !in value
    ensures Fill(p + ":idx", [("id", Str(value))]) == p + value + "x"
  {
    assert p + ":idx" == p + ":" + "id" + "x";
    FillSingle(p, "id", "x", Str(value));
  }

  /** A value `$&` is expanded by `replace` to the matched text, so the placeholder
      comes back unchanged. */
  lemma DollarPattern(p: string, key: string, rest: string)
    requires ':' !in p
    ensures Fill(p + ":" + key + rest, [(key, Str("$&"))]) == p + ":" + key + rest
  {
    var url := p + ":" + key + rest;
    var pat := ":" + key;
    assert [(key, Str("$&"))][..0] == [];
    assert url[..|p|] == p;
    assert url[|p|..|p| + |pat|] == pat;
    NoPlaceholderBefore(url, key, |p|);
    IndexOfFromFirst(url, pat, 0, |p|);
    assert Substitution("$&", pat, url[..|p|], url[|p| + |pat|..]) == pat;
    assert url[..|p|] + pat + url[|p| + |pat|..] == url;
  }
}
