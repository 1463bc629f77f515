/**
 The configuration as it is decoded into typed sections, and what the environment can do to the policy
 in it. A section is read from a table by the names of its fields, or from an array in their order.
 */
module ConfigDecode {
  import opened Outcomes
  import opened Config
  import opened ConfigCheck

  // ----- sections -----

  datatype SecretRef = SecretRef(keychain: Option<string>, env: Option<string>, command: Option<string>)

  datatype Secret = Written(text: string) | Elsewhere(source: SecretRef)

  datatype Validator = Validator(allow: Option<seq<string>>, deny: Option<seq<string>>)

  datatype Guardrail = Guardrail(mode: Option<string>, maxCost: Option<Toml>, maxRows: Option<nat>)

  datatype Pii = Pii(columns: Option<seq<string>>, mode: Option<string>)

  datatype Ssh = Ssh(host: Option<string>, remote: Option<string>, controlPersist: Option<string>,
                     reuseForward: Option<bool>)

  datatype Limits = Limits(row: Option<nat>, timeout: Option<nat>, maxRow: Option<nat>, maxTimeout: Option<nat>)

  datatype Audit = Audit(enabled: Option<bool>, path: Option<string>, logResponses: Option<bool>)

  datatype Settings = Settings(defaults: Limits, format: Option<string>, connections: map<string, Connection>,
                               audit: Audit)

  // ----- values -----

  function DecodeText(v: Toml): Option<string> {
    if v.Str? then Some(v.text) else None
  }

  function DecodeTexts(v: Toml): Option<seq<string>> {
    if v.Arr? && forall i :: 0 <= i < |v.items| ==> v.items[i].Str? then
      Some(seq(|v.items|, i requires 0 <= i < |v.items| && v.items[i].Str? => v.items[i].text))
    else None
  }

  function DecodeCount(v: Toml): Option<nat> {
    if v.Integer? && v.n >= 0 then Some(v.n) else None
  }

  function DecodeNumber(v: Toml): Option<Toml> {
    if v.Float? || v.Integer? then Some(v) else None
  }

  function DecodeFlag(v: Toml): Option<bool> {
    if v.Boolean? then Some(v.truth) else None
  }

  /** An optional field: absent is none, and present must decode. */
  function Optional<T>(v: Option<Toml>, decode: Toml -> Option<T>): Option<Option<T>> {
    if v.None? then Some(None)
    else
      var x :- decode(v.value);
      Some(Some(x))
  }

  /** The fields of a section: by name, no other name allowed, or all of them in order. */
  function Fields(v: Toml, names: seq<string>): (r: Option<seq<Option<Toml>>>)
    ensures r.Some? ==> |r.value| == |names|
  {
    match v
    case Table(entries) =>
      if forall k :: k in entries ==> k in names then
        Some(seq(|names|, i requires 0 <= i < |names| => Get(Some(v), names[i])))
      else None
    case Arr(items) =>
      if |items| == |names| then Some(seq(|names|, i requires 0 <= i < |names| && |items| == |names| => Some(items[i])))
      else None
    case _ => None
  }

  // ----- decoding -----

  function DecodeRef(v: Toml): Option<SecretRef> {
    var f :- Fields(v, ["keychain", "env", "command"]);
    var keychain :- Optional(f[0], DecodeText);
    var env :- Optional(f[1], DecodeText);
    var command :- Optional(f[2], DecodeText);
    Some(SecretRef(keychain, env, command))
  }

  function DecodeSecret(v: Toml): Option<Secret> {
    if v.Str? then Some(Written(v.text))
    else
      var source :- DecodeRef(v);
      Some(Elsewhere(source))
  }

  function DecodeValidator(v: Toml): Option<Validator> {
    var f :- Fields(v, ["allow_functions", "deny_functions"]);
    var allow :- Optional(f[0], DecodeTexts);
    var deny :- Optional(f[1], DecodeTexts);
    Some(Validator(allow, deny))
  }

  function DecodeGuardrail(v: Toml): Option<Guardrail> {
    var f :- Fields(v, ["mode", "max_cost", "max_rows"]);
    var mode :- Optional(f[0], DecodeText);
    var maxCost :- Optional(f[1], DecodeNumber);
    var maxRows :- Optional(f[2], DecodeCount);
    Some(Guardrail(mode, maxCost, maxRows))
  }

  function DecodePii(v: Toml): Option<Pii> {
    var f :- Fields(v, ["columns", "mode"]);
    var columns :- Optional(f[0], DecodeTexts);
    var mode :- Optional(f[1], DecodeText);
    Some(Pii(columns, mode))
  }

  function DecodeSsh(v: Toml): Option<Ssh> {
    var f :- Fields(v, ["host", "remote", "control_persist", "reuse_forward"]);
    var host :- Optional(f[0], DecodeText);
    var remote :- Optional(f[1], DecodeText);
    var controlPersist :- Optional(f[2], DecodeText);
    var reuseForward :- Optional(f[3], DecodeFlag);
    Some(Ssh(host, remote, controlPersist, reuseForward))
  }

  function DecodeLimits(f: seq<Option<Toml>>, at: nat): Option<Limits>
    requires at + 4 <= |f|
  {
    var row :- Optional(f[at], DecodeCount);
    var timeout :- Optional(f[at + 1], DecodeCount);
    var maxRow :- Optional(f[at + 2], DecodeCount);
    var maxTimeout :- Optional(f[at + 3], DecodeCount);
    Some(Limits(row, timeout, maxRow, maxTimeout))
  }

  const CONNECTION_FIELDS: seq<string> := [
    "engine", "url", "path", "password", "allowed_dirs", "row_limit", "timeout_secs", "max_row_limit",
    "max_timeout_secs", "validator", "ssh", "guardrail", "pii"]

  datatype Place = Place(engine: string, url: Option<Secret>, path: Option<string>, password: Option<Secret>,
                         allowedDirs: seq<string>)

  /** Where a connection leads, and from where it may be used; absent directories are none. */
  function DecodePlace(f: seq<Option<Toml>>): Option<Place>
    requires |f| == 13
  {
    if f[0].None? then None
    else
      var engine :- DecodeText(f[0].value);
      var url :- Optional(f[1], DecodeSecret);
      var path :- Optional(f[2], DecodeText);
      var password :- Optional(f[3], DecodeSecret);
      var dirs :- Optional(f[4], DecodeTexts);
      Some(Place(engine, url, path, password, if dirs.Some? then dirs.value else []))
  }

  datatype Sections = Sections(validator: Option<Validator>, ssh: Option<Ssh>, guardrail: Option<Guardrail>,
                               pii: Option<Pii>)

  function DecodeSections(f: seq<Option<Toml>>): Option<Sections>
    requires |f| == 13
  {
    var validator :- Optional(f[9], DecodeValidator);
    var ssh :- Optional(f[10], DecodeSsh);
    var guardrail :- Optional(f[11], DecodeGuardrail);
    var pii :- Optional(f[12], DecodePii);
    Some(Sections(validator, ssh, guardrail, pii))
  }

  datatype Connection = Connection(place: Place, limits: Limits, sections: Sections)

  /** The fields of a connection, in their order. */
  function DecodeFields(f: seq<Option<Toml>>): Option<Connection>
    requires |f| == 13
  {
    var place :- DecodePlace(f);
    var limits :- DecodeLimits(f, 5);
    var sections :- DecodeSections(f);
    Some(Connection(place, limits, sections))
  }

  function DecodeConnection(v: Toml): Option<Connection> {
    var f :- Fields(v, CONNECTION_FIELDS);
    DecodeFields(f)
  }

  function DecodeConnections(v: Toml): Option<map<string, Connection>> {
    if v.Table? && forall k :: k in v.entries ==> DecodeConnection(v.entries[k]).Some? then
      Some(map k | k in v.entries :: DecodeConnection(v.entries[k]).value)
    else None
  }

  function DecodeAudit(v: Toml): Option<Audit> {
    var f :- Fields(v, ["enabled", "path", "log_responses"]);
    var enabled :- Optional(f[0], DecodeFlag);
    var path :- Optional(f[1], DecodeText);
    var logResponses :- Optional(f[2], DecodeFlag);
    Some(Audit(enabled, path, logResponses))
  }

  datatype Defaults = Defaults(limits: Limits, format: Option<string>)

  function DecodeDefaults(v: Toml): Option<Defaults> {
    var f :- Fields(v, ["row_limit", "timeout_secs", "max_row_limit", "max_timeout_secs", "format"]);
    var limits :- DecodeLimits(f, 0);
    var format :- Optional(f[4], DecodeText);
    Some(Defaults(limits, format))
  }

  /** Every section of the file may be absent. */
  function DecodeParts(defaults: Option<Toml>, connections: Option<Toml>, audit: Option<Toml>): Option<Settings> {
    var defaults :- Optional(defaults, DecodeDefaults);
    var connections :- Optional(connections, DecodeConnections);
    var audit :- Optional(audit, DecodeAudit);
    var d := if defaults.Some? then defaults.value else Defaults(Limits(None, None, None, None), None);
    Some(Settings(d.limits, d.format, if connections.Some? then connections.value else map[],
                  if audit.Some? then audit.value else Audit(None, None, None)))
  }

  /** The whole file, whose text is always a table. */
  function Decode(v: Toml): Option<Settings> {
    if !v.Table? || !(forall k :: k in v.entries ==> k in ["defaults", "connections", "audit"]) then None
    else DecodeParts(Get(Some(v), "defaults"), Get(Some(v), "connections"), Get(Some(v), "audit"))
  }

  function CountOf(r: SecretRef): nat {
    (if r.keychain.Some? then 1 else 0) + (if r.env.Some? then 1 else 0) + (if r.command.Some? then 1 else 0)
  }

  /** A secret that is not written down comes from exactly one place. */
  predicate OneSource(s: Option<Secret>) {
    s.Some? && s.value.Elsewhere? ==> CountOf(s.value.source) == 1
  }

  predicate OneSourceEach(p: Place) {
    OneSource(p.url) && OneSource(p.password)
  }

  predicate Validated(c: Settings) {
    forall k :: k in c.connections ==> OneSourceEach(c.connections[k].place)
  }

  /** Up to the later checks: the check on the raw tree, substitution, decoding, the sources of the secrets. */
  ghost function Decoded(v: Toml, env: Env): Option<Settings> {
    if !PolicyIsLiteral(v) then None
    else
      var s :- Substitute(v, env);
      var c :- Decode(s);
      if Validated(c) then Some(c) else None
  }

  /** The same without substitution: the file as it is written. */
  ghost function AsWritten(v: Toml): Option<Settings> {
    if !PolicyIsLiteral(v) then None
    else
      var c :- Decode(v);
      if Validated(c) then Some(c) else None
  }

  /** Loading, `accepts` being the later checks of modes, paths, tunnels and limits. */
  ghost function Load(v: Toml, env: Env, accepts: Settings -> bool): Option<Settings> {
    var c :- Decoded(v, env);
    if accepts(c) then Some(c) else None
  }

  // ----- the policy -----

  /** Where a secret comes from: none, the file itself (`Some(None)`), or a reference. */
  function SourceOf(s: Option<Secret>): Option<Option<SecretRef>> {
    match s
    case None => None
    case Some(Written(_)) => Some(None)
    case Some(Elsewhere(source)) => Some(Some(source))
  }

  /** What one connection is ruled by. */
  datatype Ruling = Ruling(origin: Origin, limits: Limits, rules: Rules)

  datatype Origin = Origin(url: Option<Option<SecretRef>>, password: Option<Option<SecretRef>>,
                           allowedDirs: seq<string>)

  datatype Rules = Rules(validator: Option<Validator>, guardrail: Option<Guardrail>, pii: Option<Pii>)

  function OriginOf(p: Place): Origin {
    Origin(SourceOf(p.url), SourceOf(p.password), p.allowedDirs)
  }

  function RulesOf(s: Sections): Rules {
    Rules(s.validator, s.guardrail, s.pii)
  }

  function RulingOf(c: Connection): Ruling {
    Ruling(OriginOf(c.place), c.limits, RulesOf(c.sections))
  }

  datatype Rulings = Rulings(defaults: Limits, connections: map<string, Ruling>, audit: Audit)

  /** The policy of a decoded configuration. */
  function RulingsOf(c: Settings): Rulings {
    Rulings(c.defaults, map k | k in c.connections :: RulingOf(c.connections[k]), c.audit)
  }

  /** Configurations of one policy protect the same, allow the same and are limited alike, connection by connection. */
  lemma SamePolicy(a: Settings, b: Settings, k: string)
    requires RulingsOf(a) == RulingsOf(b)
    ensures a.audit == b.audit && a.defaults == b.defaults && (k in a.connections <==> k in b.connections)
    ensures k in a.connections ==>
              var c, d := a.connections[k], b.connections[k];
              && c.sections.validator == d.sections.validator && c.sections.guardrail == d.sections.guardrail
              && c.sections.pii == d.sections.pii && c.limits == d.limits
              && c.place.allowedDirs == d.place.allowedDirs
              && (c.place.url.Some? && c.place.url.value.Elsewhere? ==> c.place.url == d.place.url)
              && (c.place.password.Some? && c.place.password.value.Elsewhere? ==> c.place.password == d.place.password)
  {
    assert k in RulingsOf(a).connections <==> k in a.connections;
    assert k in RulingsOf(b).connections <==> k in b.connections;
    if k in a.connections {
      assert RulingsOf(a).connections[k] == RulingOf(a.connections[k]);
      assert RulingsOf(b).connections[k] == RulingOf(b.connections[k]);
    }
  }

  /** Every secret of a configuration that loads is written down, or names exactly one place. */
  lemma LoadedNamesOneSource(v: Toml, env: Env, accepts: Settings -> bool, c: Settings, k: string)
    requires Load(v, env, accepts) == Some(c) && k in c.connections
    ensures ExactlyOne(c.connections[k].place.url) && ExactlyOne(c.connections[k].place.password)
  {
    LoadedIsValidated(v, env, accepts, c);
    assert OneSourceEach(c.connections[k].place);
    OneSourceIsExact(c.connections[k].place.url);
    OneSourceIsExact(c.connections[k].place.password);
  }

  lemma LoadedIsValidated(v: Toml, env: Env, accepts: Settings -> bool, c: Settings)
    requires Load(v, env, accepts) == Some(c)
    ensures Validated(c)
  {
  }

  lemma OneSourceIsExact(s: Option<Secret>)
    ensures OneSource(s) <==> ExactlyOne(s)
  {
  }

  predicate ExactlyOne(s: Option<Secret>) {
    match s
    case Some(Elsewhere(SecretRef(keychain, env, command))) =>
      || (keychain.Some? && env.None? && command.None?)
      || (keychain.None? && env.Some? && command.None?)
      || (keychain.None? && env.None? && command.Some?)
    case _ => true
  }

  // ----- no reference anywhere in it -----

  predicate SteadyText(t: Option<string>) {
    t.Some? ==> !Refs(t.value)
  }

  predicate SteadyTexts(ts: Option<seq<string>>) {
    ts.Some? ==> forall i :: 0 <= i < |ts.value| ==> !Refs(ts.value[i])
  }

  predicate SteadySource(s: Option<Option<SecretRef>>) {
    s.Some? && s.value.Some? ==>
      SteadyText(s.value.value.keychain) && SteadyText(s.value.value.env) && SteadyText(s.value.value.command)
  }

  predicate SteadyOrigin(o: Origin) {
    SteadySource(o.url) && SteadySource(o.password) && SteadyTexts(Some(o.allowedDirs))
  }

  predicate SteadyRules(r: Rules) {
    && (r.validator.Some? ==> SteadyTexts(r.validator.value.allow) && SteadyTexts(r.validator.value.deny))
    && (r.guardrail.Some? ==> SteadyText(r.guardrail.value.mode))
    && (r.pii.Some? ==> SteadyTexts(r.pii.value.columns) && SteadyText(r.pii.value.mode))
  }

  predicate SteadyRuling(r: Ruling) {
    SteadyOrigin(r.origin) && SteadyRules(r.rules)
  }

  predicate Steady(r: Rulings) {
    SteadyText(r.audit.path) && forall k :: k in r.connections ==> SteadyRuling(r.connections[k])
  }

  // ----- what substitution makes of a policy -----

  predicate TextBecomes(a: Option<string>, b: Option<string>, env: Env) {
    a.Some? == b.Some? && (a.Some? ==> SubstituteStr(a.value, env) == Outcome.Ok(b.value))
  }

  predicate TextsBecome(a: Option<seq<string>>, b: Option<seq<string>>, env: Env) {
    && a.Some? == b.Some?
    && (a.Some? ==> |a.value| == |b.value|
                    && forall i :: 0 <= i < |a.value| ==> SubstituteStr(a.value[i], env) == Outcome.Ok(b.value[i]))
  }

  predicate SourceBecomes(a: Option<Option<SecretRef>>, b: Option<Option<SecretRef>>, env: Env) {
    && a.Some? == b.Some?
    && (a.Some? ==> a.value.Some? == b.value.Some?
                    && (a.value.Some? ==> RefBecomes(a.value.value, b.value.value, env)))
  }

  predicate RefBecomes(a: SecretRef, b: SecretRef, env: Env) {
    && TextBecomes(a.keychain, b.keychain, env) && TextBecomes(a.env, b.env, env)
    && TextBecomes(a.command, b.command, env)
  }

  predicate ValidatorBecomes(a: Validator, b: Validator, env: Env) {
    TextsBecome(a.allow, b.allow, env) && TextsBecome(a.deny, b.deny, env)
  }

  predicate GuardrailBecomes(a: Guardrail, b: Guardrail, env: Env) {
    TextBecomes(a.mode, b.mode, env) && a.maxCost == b.maxCost && a.maxRows == b.maxRows
  }

  predicate PiiBecomes(a: Pii, b: Pii, env: Env) {
    TextsBecome(a.columns, b.columns, env) && TextBecomes(a.mode, b.mode, env)
  }

  predicate OriginBecomes(a: Origin, b: Origin, env: Env) {
    && SourceBecomes(a.url, b.url, env) && SourceBecomes(a.password, b.password, env)
    && TextsBecome(Some(a.allowedDirs), Some(b.allowedDirs), env)
  }

  predicate RulesBecome(a: Rules, b: Rules, env: Env) {
    && a.validator.Some? == b.validator.Some? && a.guardrail.Some? == b.guardrail.Some? && a.pii.Some? == b.pii.Some?
    && (a.validator.Some? ==> ValidatorBecomes(a.validator.value, b.validator.value, env))
    && (a.guardrail.Some? ==> GuardrailBecomes(a.guardrail.value, b.guardrail.value, env))
    && (a.pii.Some? ==> PiiBecomes(a.pii.value, b.pii.value, env))
  }

  predicate RulingBecomes(a: Ruling, b: Ruling, env: Env) {
    OriginBecomes(a.origin, b.origin, env) && a.limits == b.limits && RulesBecome(a.rules, b.rules, env)
  }

  predicate RulingsBecome(a: Rulings, b: Rulings, env: Env) {
    && a.defaults == b.defaults && a.connections.Keys == b.connections.Keys
    && a.audit.enabled == b.audit.enabled && a.audit.logResponses == b.audit.logResponses
    && TextBecomes(a.audit.path, b.audit.path, env)
    && forall k :: k in a.connections ==> RulingBecomes(a.connections[k], b.connections[k], env)
  }

  // ----- steady texts stay, and only they stay under every environment -----

  lemma SteadyTextStays(a: Option<string>, b: Option<string>, env: Env)
    requires TextBecomes(a, b, env)
    ensures SteadyText(a) ==> a == b
    ensures env == Blank && a == b ==> SteadyText(a)
  {
    if a.Some? {
      ReferencesDecide(a.value);
      BlankChanges(a.value);
    }
  }

  lemma SteadyTextsStay(a: Option<seq<string>>, b: Option<seq<string>>, env: Env)
    requires TextsBecome(a, b, env)
    ensures SteadyTexts(a) ==> a == b
    ensures env == Blank && a == b ==> SteadyTexts(a)
  {
    if a.Some? {
      forall i | 0 <= i < |a.value|
        ensures !Refs(a.value[i]) ==> a.value[i] == b.value[i]
        ensures env == Blank && a.value[i] == b.value[i] ==> !Refs(a.value[i])
      {
        SteadyTextStays(Some(a.value[i]), Some(b.value[i]), env);
      }
      assert SteadyTexts(a) ==> a.value == b.value;
    }
  }

  lemma SteadySourceStays(a: Option<Option<SecretRef>>, b: Option<Option<SecretRef>>, env: Env)
    requires SourceBecomes(a, b, env)
    ensures SteadySource(a) ==> a == b
    ensures env == Blank && a == b ==> SteadySource(a)
  {
    if a.Some? && a.value.Some? {
      var x, y := a.value.value, b.value.value;
      SteadyTextStays(x.keychain, y.keychain, env);
      SteadyTextStays(x.env, y.env, env);
      SteadyTextStays(x.command, y.command, env);
    }
  }

  lemma SteadyRulesStay(a: Rules, b: Rules, env: Env)
    requires RulesBecome(a, b, env)
    ensures SteadyRules(a) ==> a == b
    ensures env == Blank && a == b ==> SteadyRules(a)
  {
    if a.validator.Some? {
      SteadyTextsStay(a.validator.value.allow, b.validator.value.allow, env);
      SteadyTextsStay(a.validator.value.deny, b.validator.value.deny, env);
    }
    if a.guardrail.Some? {
      SteadyTextStays(a.guardrail.value.mode, b.guardrail.value.mode, env);
    }
    if a.pii.Some? {
      SteadyTextsStay(a.pii.value.columns, b.pii.value.columns, env);
      SteadyTextStays(a.pii.value.mode, b.pii.value.mode, env);
    }
  }

  lemma SteadyRulingStays(a: Ruling, b: Ruling, env: Env)
    requires RulingBecomes(a, b, env)
    ensures SteadyRuling(a) ==> a == b
    ensures env == Blank && a == b ==> SteadyRuling(a)
  {
    SteadySourceStays(a.origin.url, b.origin.url, env);
    SteadySourceStays(a.origin.password, b.origin.password, env);
    SteadyTextsStay(Some(a.origin.allowedDirs), Some(b.origin.allowedDirs), env);
    SteadyRulesStay(a.rules, b.rules, env);
  }

  lemma SteadyStays(a: Rulings, b: Rulings, env: Env)
    requires RulingsBecome(a, b, env)
    ensures Steady(a) ==> a == b
    ensures env == Blank && a == b ==> Steady(a)
  {
    SteadyTextStays(a.audit.path, b.audit.path, env);
    forall k | k in a.connections
      ensures SteadyRuling(a.connections[k]) ==> a.connections[k] == b.connections[k]
      ensures env == Blank && a.connections[k] == b.connections[k] ==> SteadyRuling(a.connections[k])
    {
      SteadyRulingStays(a.connections[k], b.connections[k], env);
    }
  }

  // ----- decoding and substitution commute -----

  /** A value, or none, before and after substitution. */
  predicate Became(a: Option<Toml>, b: Option<Toml>, env: Env) {
    a.Some? == b.Some? && (a.Some? ==> Substitute(a.value, env) == Some(b.value))
  }

  predicate AllBecame(f: seq<Option<Toml>>, g: seq<Option<Toml>>, env: Env) {
    |f| == |g| && forall i :: 0 <= i < |f| ==> Became(f[i], g[i], env)
  }

  lemma GetCommutes(v: Option<Toml>, s: Option<Toml>, key: string, env: Env)
    requires Became(v, s, env)
    ensures Became(Get(v, key), Get(s, key), env)
  {
  }

  lemma FieldsCommute(v: Toml, s: Toml, names: seq<string>, env: Env)
    requires Substitute(v, env) == Some(s)
    ensures Fields(v, names).Some? == Fields(s, names).Some?
    ensures Fields(v, names).Some? ==> AllBecame(Fields(v, names).value, Fields(s, names).value, env)
  {
    if v.Table? {
      forall i | 0 <= i < |names|
        ensures Became(Get(Some(v), names[i]), Get(Some(s), names[i]), env)
      {
        GetCommutes(Some(v), Some(s), names[i], env);
      }
    }
  }

  lemma TextCommutes(v: Option<Toml>, s: Option<Toml>, env: Env)
    requires Became(v, s, env)
    ensures var a, b := Optional(v, DecodeText), Optional(s, DecodeText);
            a.Some? == b.Some? && (a.Some? ==> TextBecomes(a.value, b.value, env))
  {
  }

  lemma TextsCommute(v: Option<Toml>, s: Option<Toml>, env: Env)
    requires Became(v, s, env)
    ensures var a, b := Optional(v, DecodeTexts), Optional(s, DecodeTexts);
            a.Some? == b.Some? && (a.Some? ==> TextsBecome(a.value, b.value, env))
  {
    if v.Some? && v.value.Arr? {
      var xs, ys := v.value.items, s.value.items;
      forall i | 0 <= i < |xs|
        ensures xs[i].Str? == ys[i].Str?
        ensures xs[i].Str? ==> SubstituteStr(xs[i].text, env) == Outcome.Ok(ys[i].text)
      {
        assert Substitute(xs[i], env) == Some(ys[i]);
      }
    }
  }

  /** A field that is no text is decoded alike before and after. */
  lemma OthersCommute(v: Option<Toml>, s: Option<Toml>, env: Env)
    requires Became(v, s, env)
    ensures Optional(v, DecodeCount) == Optional(s, DecodeCount)
    ensures Optional(v, DecodeNumber) == Optional(s, DecodeNumber)
    ensures Optional(v, DecodeFlag) == Optional(s, DecodeFlag)
  {
  }

  lemma RefCommutes(v: Toml, s: Toml, env: Env)
    requires Substitute(v, env) == Some(s)
    ensures var a, b := DecodeRef(v), DecodeRef(s);
            a.Some? == b.Some? && (a.Some? ==> RefBecomes(a.value, b.value, env))
  {
    var names := ["keychain", "env", "command"];
    FieldsCommute(v, s, names, env);
    if Fields(v, names).Some? {
      var f, g := Fields(v, names).value, Fields(s, names).value;
      TextCommutes(f[0], g[0], env);
      TextCommutes(f[1], g[1], env);
      TextCommutes(f[2], g[2], env);
    }
  }

  lemma SecretCommutes(v: Option<Toml>, s: Option<Toml>, env: Env)
    requires Became(v, s, env)
    ensures var a, b := Optional(v, DecodeSecret), Optional(s, DecodeSecret);
            a.Some? == b.Some?
            && (a.Some? ==> SourceBecomes(SourceOf(a.value), SourceOf(b.value), env)
                            && OneSource(a.value) == OneSource(b.value))
  {
    if v.Some? && !v.value.Str? {
      RefCommutes(v.value, s.value, env);
    }
  }

  lemma ValidatorCommutes(v: Toml, s: Toml, env: Env)
    requires Substitute(v, env) == Some(s)
    ensures var a, b := DecodeValidator(v), DecodeValidator(s);
            a.Some? == b.Some? && (a.Some? ==> ValidatorBecomes(a.value, b.value, env))
  {
    var names := ["allow_functions", "deny_functions"];
    FieldsCommute(v, s, names, env);
    if Fields(v, names).Some? {
      var f, g := Fields(v, names).value, Fields(s, names).value;
      TextsCommute(f[0], g[0], env);
      TextsCommute(f[1], g[1], env);
    }
  }

  lemma GuardrailCommutes(v: Toml, s: Toml, env: Env)
    requires Substitute(v, env) == Some(s)
    ensures var a, b := DecodeGuardrail(v), DecodeGuardrail(s);
            a.Some? == b.Some? && (a.Some? ==> GuardrailBecomes(a.value, b.value, env))
  {
    var names := ["mode", "max_cost", "max_rows"];
    FieldsCommute(v, s, names, env);
    if Fields(v, names).Some? {
      var f, g := Fields(v, names).value, Fields(s, names).value;
      TextCommutes(f[0], g[0], env);
      OthersCommute(f[1], g[1], env);
      OthersCommute(f[2], g[2], env);
    }
  }

  lemma PiiCommutes(v: Toml, s: Toml, env: Env)
    requires Substitute(v, env) == Some(s)
    ensures var a, b := DecodePii(v), DecodePii(s);
            a.Some? == b.Some? && (a.Some? ==> PiiBecomes(a.value, b.value, env))
  {
    var names := ["columns", "mode"];
    FieldsCommute(v, s, names, env);
    if Fields(v, names).Some? {
      var f, g := Fields(v, names).value, Fields(s, names).value;
      TextsCommute(f[0], g[0], env);
      TextCommutes(f[1], g[1], env);
    }
  }

  lemma SshCommutes(v: Toml, s: Toml, env: Env)
    requires Substitute(v, env) == Some(s)
    ensures DecodeSsh(v).Some? == DecodeSsh(s).Some?
  {
    var names := ["host", "remote", "control_persist", "reuse_forward"];
    FieldsCommute(v, s, names, env);
    if Fields(v, names).Some? {
      var f, g := Fields(v, names).value, Fields(s, names).value;
      TextCommutes(f[0], g[0], env);
      TextCommutes(f[1], g[1], env);
      TextCommutes(f[2], g[2], env);
      OthersCommute(f[3], g[3], env);
    }
  }

  lemma LimitsCommute(f: seq<Option<Toml>>, g: seq<Option<Toml>>, at: nat, env: Env)
    requires AllBecame(f, g, env) && at + 4 <= |f|
    ensures DecodeLimits(f, at) == DecodeLimits(g, at)
  {
    OthersCommute(f[at], g[at], env);
    OthersCommute(f[at + 1], g[at + 1], env);
    OthersCommute(f[at + 2], g[at + 2], env);
    OthersCommute(f[at + 3], g[at + 3], env);
  }

  lemma SectionsCommute(f: seq<Option<Toml>>, g: seq<Option<Toml>>, env: Env)
    requires |f| == 13 && AllBecame(f, g, env)
    ensures var a, b := DecodeSections(f), DecodeSections(g);
            a.Some? == b.Some? && (a.Some? ==> RulesBecome(RulesOf(a.value), RulesOf(b.value), env))
  {
    assert Became(f[9], g[9], env) && Became(f[10], g[10], env);
    assert Became(f[11], g[11], env) && Became(f[12], g[12], env);
    if f[9].Some? {
      ValidatorCommutes(f[9].value, g[9].value, env);
    }
    if f[10].Some? {
      SshCommutes(f[10].value, g[10].value, env);
    }
    if f[11].Some? {
      GuardrailCommutes(f[11].value, g[11].value, env);
    }
    if f[12].Some? {
      PiiCommutes(f[12].value, g[12].value, env);
    }
  }

  lemma PlaceCommutes(f: seq<Option<Toml>>, g: seq<Option<Toml>>, env: Env)
    requires |f| == 13 && AllBecame(f, g, env)
    ensures var a, b := DecodePlace(f), DecodePlace(g);
            && a.Some? == b.Some?
            && (a.Some? ==> OriginBecomes(OriginOf(a.value), OriginOf(b.value), env)
                            && OneSourceEach(a.value) == OneSourceEach(b.value))
  {
    TextCommutes(f[0], g[0], env);
    SecretCommutes(f[1], g[1], env);
    TextCommutes(f[2], g[2], env);
    SecretCommutes(f[3], g[3], env);
    TextsCommute(f[4], g[4], env);
  }

  /** What is kept of a connection: its policy, text by text, and whether its secrets name one source. */
  predicate ConnectionBecomes(a: Connection, b: Connection, env: Env) {
    RulingBecomes(RulingOf(a), RulingOf(b), env) && OneSourceEach(a.place) == OneSourceEach(b.place)
  }

  lemma ConnectionCommutes(v: Toml, s: Toml, env: Env)
    requires Substitute(v, env) == Some(s)
    ensures var a, b := DecodeConnection(v), DecodeConnection(s);
            a.Some? == b.Some? && (a.Some? ==> ConnectionBecomes(a.value, b.value, env))
  {
    FieldsCommute(v, s, CONNECTION_FIELDS, env);
    if Fields(v, CONNECTION_FIELDS).Some? {
      var f, g := Fields(v, CONNECTION_FIELDS).value, Fields(s, CONNECTION_FIELDS).value;
      PlaceCommutes(f, g, env);
      LimitsCommute(f, g, 5, env);
      SectionsCommute(f, g, env);
    }
  }

  lemma AuditCommutes(v: Toml, s: Toml, env: Env)
    requires Substitute(v, env) == Some(s)
    ensures var a, b := DecodeAudit(v), DecodeAudit(s);
            && a.Some? == b.Some?
            && (a.Some? ==> a.value.enabled == b.value.enabled && a.value.logResponses == b.value.logResponses
                            && TextBecomes(a.value.path, b.value.path, env))
  {
    var names := ["enabled", "path", "log_responses"];
    FieldsCommute(v, s, names, env);
    if Fields(v, names).Some? {
      var f, g := Fields(v, names).value, Fields(s, names).value;
      OthersCommute(f[0], g[0], env);
      TextCommutes(f[1], g[1], env);
      OthersCommute(f[2], g[2], env);
    }
  }

  lemma DefaultsCommute(v: Toml, s: Toml, env: Env)
    requires Substitute(v, env) == Some(s)
    ensures var a, b := DecodeDefaults(v), DecodeDefaults(s);
            a.Some? == b.Some? && (a.Some? ==> a.value.limits == b.value.limits)
  {
    var names := ["row_limit", "timeout_secs", "max_row_limit", "max_timeout_secs", "format"];
    FieldsCommute(v, s, names, env);
    if Fields(v, names).Some? {
      var f, g := Fields(v, names).value, Fields(s, names).value;
      LimitsCommute(f, g, 0, env);
      TextCommutes(f[4], g[4], env);
    }
  }

  predicate ConnectionsBecome(a: map<string, Connection>, b: map<string, Connection>, env: Env) {
    a.Keys == b.Keys && forall k :: k in a ==> ConnectionBecomes(a[k], b[k], env)
  }

  lemma ConnectionsCommute(v: Toml, s: Toml, env: Env)
    requires Substitute(v, env) == Some(s)
    ensures var a, b := DecodeConnections(v), DecodeConnections(s);
            a.Some? == b.Some? && (a.Some? ==> ConnectionsBecome(a.value, b.value, env))
  {
    if v.Table? {
      forall k | k in v.entries
        ensures var a, b := DecodeConnection(v.entries[k]), DecodeConnection(s.entries[k]);
                a.Some? == b.Some? && (a.Some? ==> ConnectionBecomes(a.value, b.value, env))
      {
        ConnectionCommutes(v.entries[k], s.entries[k], env);
      }
    }
  }

  predicate SettingsBecome(a: Settings, b: Settings, env: Env) {
    && a.defaults == b.defaults && ConnectionsBecome(a.connections, b.connections, env)
    && a.audit.enabled == b.audit.enabled && a.audit.logResponses == b.audit.logResponses
    && TextBecomes(a.audit.path, b.audit.path, env)
  }

  /** The decoded policy after substitution is the decoded policy before it, each text substituted. */
  lemma DecodeCommutes(v: Toml, s: Toml, env: Env)
    requires Substitute(v, env) == Some(s)
    ensures Decode(v).Some? == Decode(s).Some?
    ensures Decode(v).Some? ==>
              && RulingsBecome(RulingsOf(Decode(v).value), RulingsOf(Decode(s).value), env)
              && Validated(Decode(v).value) == Validated(Decode(s).value)
  {
    if v.Table? {
      GetCommutes(Some(v), Some(s), "defaults", env);
      GetCommutes(Some(v), Some(s), "connections", env);
      GetCommutes(Some(v), Some(s), "audit", env);
      var defaults, connections, audit := Get(Some(v), "defaults"), Get(Some(v), "connections"), Get(Some(v), "audit");
      PartsCommute(defaults, Get(Some(s), "defaults"), connections, Get(Some(s), "connections"),
                   audit, Get(Some(s), "audit"), env);
      if Decode(v).Some? {
        SettingsRule(Decode(v).value, Decode(s).value, env);
      }
    }
  }

  lemma PartsCommute(defaults: Option<Toml>, defaults': Option<Toml>, connections: Option<Toml>,
                     connections': Option<Toml>, audit: Option<Toml>, audit': Option<Toml>, env: Env)
    requires Became(defaults, defaults', env) && Became(connections, connections', env) && Became(audit, audit', env)
    ensures var a, b := DecodeParts(defaults, connections, audit), DecodeParts(defaults', connections', audit');
            && a.Some? == b.Some?
            && (a.Some? ==> SettingsBecome(a.value, b.value, env))
  {
    if defaults.Some? {
      DefaultsCommute(defaults.value, defaults'.value, env);
    }
    if connections.Some? {
      ConnectionsCommute(connections.value, connections'.value, env);
    }
    if audit.Some? {
      AuditCommutes(audit.value, audit'.value, env);
    }
  }

  lemma SettingsRule(a: Settings, b: Settings, env: Env)
    requires SettingsBecome(a, b, env)
    ensures RulingsBecome(RulingsOf(a), RulingsOf(b), env) && Validated(a) == Validated(b)
  {
    assert forall k :: k in a.connections ==> ConnectionBecomes(a.connections[k], b.connections[k], env);
  }

  // ----- what the environment can do -----

  /** Every name standing for its own reference, a tree is substituted to itself. */
  lemma {:induction false} QuotingKeepsTrees(v: Toml)
    ensures Substitute(v, Quoting) == Some(v)
    decreases v
  {
    match v {
      case Str(s) => QuotingIsIdentity(s);
      case Arr(items) =>
        forall i | 0 <= i < |items| ensures Substitute(items[i], Quoting) == Some(items[i]) {
          QuotingKeepsTrees(items[i]);
        }
        assert Substitute(v, Quoting).value.items == items;
      case Table(entries) =>
        forall k | k in entries ensures Substitute(entries[k], Quoting) == Some(entries[k]) {
          QuotingKeepsTrees(entries[k]);
        }
        assert Substitute(v, Quoting).value.entries == entries;
      case _ =>
    }
  }

  lemma {:induction false} BlankKeepsShape(v: Toml)
    ensures Substitute(v, Blank).Some?
    decreases v
  {
    match v {
      case Str(s) => BlankChanges(s);
      case Arr(items) =>
        forall i | 0 <= i < |items| ensures Substitute(items[i], Blank).Some? {
          BlankKeepsShape(items[i]);
        }
      case Table(entries) =>
        forall k | k in entries ensures Substitute(entries[k], Blank).Some? {
          BlankKeepsShape(entries[k]);
        }
      case _ =>
    }
  }

  /** The configuration decodes under an environment exactly when it decodes as written, and the policies correspond. */
  lemma DecodesAsWritten(v: Toml, env: Env)
    requires Substitute(v, env).Some?
    ensures Decoded(v, env).Some? == AsWritten(v).Some?
    ensures Decoded(v, env).Some? ==>
              RulingsBecome(RulingsOf(AsWritten(v).value), RulingsOf(Decoded(v, env).value), env)
  {
    DecodeCommutes(v, Substitute(v, env).value, env);
  }

  /** The policy of the configuration under `env`, when it loads. */
  ghost function PolicyUnder(v: Toml, env: Env, accepts: Settings -> bool): Option<Rulings> {
    var c :- Load(v, env, accepts);
    Some(RulingsOf(c))
  }

  /** If both environments load the configuration they leave the same policy. */
  ghost predicate Agree(v: Toml, a: Env, b: Env, accepts: Settings -> bool) {
    PolicyUnder(v, a, accepts).Some? && PolicyUnder(v, b, accepts).Some? ==>
      PolicyUnder(v, a, accepts) == PolicyUnder(v, b, accepts)
  }

  ghost predicate Agreement(v: Toml, accepts: Settings -> bool) {
    forall a, b :: Agree(v, a, b, accepts)
  }

  /** No well-formed reference stands in the policy that the file decodes to as it is written. */
  ghost predicate WrittenSteady(v: Toml) {
    AsWritten(v).Some? ==> Steady(RulingsOf(AsWritten(v).value))
  }

  lemma SteadyLoads(v: Toml, env: Env, accepts: Settings -> bool)
    requires PolicyUnder(v, env, accepts).Some?
    ensures AsWritten(v).Some?
    ensures WrittenSteady(v) ==> PolicyUnder(v, env, accepts) == Some(RulingsOf(AsWritten(v).value))
  {
    DecodesAsWritten(v, env);
    SteadyStays(RulingsOf(AsWritten(v).value), RulingsOf(Decoded(v, env).value), env);
  }

  lemma SteadyAgrees(v: Toml, accepts: Settings -> bool)
    requires WrittenSteady(v)
    ensures Agreement(v, accepts)
  {
    forall a, b
      ensures Agree(v, a, b, accepts)
    {
      SteadyPair(v, a, b, accepts);
    }
  }

  lemma SteadyPair(v: Toml, a: Env, b: Env, accepts: Settings -> bool)
    requires WrittenSteady(v)
    ensures Agree(v, a, b, accepts)
  {
    if PolicyUnder(v, a, accepts).Some? && PolicyUnder(v, b, accepts).Some? {
      SteadyLoads(v, a, accepts);
      SteadyLoads(v, b, accepts);
    }
  }

  lemma AcceptedLeaves(v: Toml, env: Env, accepts: Settings -> bool)
    requires Decoded(v, env).Some? && accepts(Decoded(v, env).value)
    ensures PolicyUnder(v, env, accepts) == Some(RulingsOf(Decoded(v, env).value))
  {
  }

  lemma Disagree(v: Toml, a: Env, b: Env, accepts: Settings -> bool)
    requires Decoded(v, a).Some? && accepts(Decoded(v, a).value)
    requires Decoded(v, b).Some? && accepts(Decoded(v, b).value)
    requires RulingsOf(Decoded(v, a).value) != RulingsOf(Decoded(v, b).value)
    ensures !Agreement(v, accepts)
  {
    AcceptedLeaves(v, a, accepts);
    AcceptedLeaves(v, b, accepts);
    assert !Agree(v, a, b, accepts);
  }

  /** When the policy is not steady, later checks that let everything pass leave two policies. */
  lemma UnsteadyDiffers(v: Toml, accepts: Settings -> bool)
    requires !WrittenSteady(v) && forall c :: accepts(c)
    ensures !Agreement(v, accepts)
  {
    QuotingDecodes(v);
    BlankDiffers(v);
    Disagree(v, Quoting, Blank, accepts);
  }

  lemma QuotingDecodes(v: Toml)
    ensures Decoded(v, Quoting) == AsWritten(v)
  {
    QuotingKeepsTrees(v);
  }

  lemma BlankDiffers(v: Toml)
    requires !WrittenSteady(v)
    ensures Decoded(v, Blank).Some? && RulingsOf(Decoded(v, Blank).value) != RulingsOf(AsWritten(v).value)
  {
    BlankKeepsShape(v);
    DecodesAsWritten(v, Blank);
    SteadyStays(RulingsOf(AsWritten(v).value), RulingsOf(Decoded(v, Blank).value), Blank);
  }

  /** The environment cannot change the policy, whatever the later checks let pass. */
  ghost predicate AlwaysAgree(v: Toml) {
    forall accepts: Settings -> bool :: Agreement(v, accepts)
  }

  lemma SteadyAlwaysAgrees(v: Toml)
    requires WrittenSteady(v)
    ensures AlwaysAgree(v)
  {
    forall accepts: Settings -> bool
      ensures Agreement(v, accepts)
    {
      SteadyAgrees(v, accepts);
    }
  }

  /**
   The environment cannot change the policy, whatever the later checks let pass, if and only if no
   well-formed reference stands in the policy that the file decodes to as it is written.
   */
  lemma EnvironmentsAgreeExactly(v: Toml)
    ensures AlwaysAgree(v) <==> WrittenSteady(v)
  {
    if WrittenSteady(v) {
      SteadyAlwaysAgrees(v);
    } else {
      UnsteadyDiffers(v, _ => true);
    }
  }

  // ----- sections written as tables -----

  predicate NoArray(v: Option<Toml>) {
    v.Some? ==> !v.value.Arr?
  }

  predicate ConnectionOfTables(conn: Toml) {
    var here := Some(conn);
    !conn.Arr? && NoArray(Get(here, "validator")) && NoArray(Get(here, "guardrail")) && NoArray(Get(here, "pii"))
  }

  /** No section that holds policy is written as an array. */
  predicate SectionsAreTables(v: Toml) {
    && NoArray(Get(Some(v), "audit"))
    && var connections := Get(Some(v), "connections");
       connections.Some? && connections.value.Table? ==>
         forall k :: k in connections.value.entries ==> ConnectionOfTables(connections.value.entries[k])
  }

  lemma LiteralTextIsSteady(v: Option<Toml>)
    requires LiteralText(v) && Optional(v, DecodeText).Some?
    ensures SteadyText(Optional(v, DecodeText).value)
  {
    if v.Some? {
      LiteralHasNoReference(v.value.text);
    }
  }

  lemma LiteralItemsAreSteady(v: Option<Toml>)
    requires ItemsLiteral(v) && Optional(v, DecodeTexts).Some?
    ensures SteadyTexts(Optional(v, DecodeTexts).value)
  {
    if v.Some? {
      forall i | 0 <= i < |v.value.items|
        ensures !Refs(v.value.items[i].text)
      {
        assert LiteralText(Some(v.value.items[i]));
        LiteralHasNoReference(v.value.items[i].text);
      }
    }
  }

  /** A reference with one source was written as a table, and its texts are literal. */
  lemma LiteralSourceIsSteady(v: Option<Toml>)
    requires ValuesLiteral(v) && Optional(v, DecodeSecret).Some? && OneSource(Optional(v, DecodeSecret).value)
    ensures SteadySource(SourceOf(Optional(v, DecodeSecret).value))
  {
    if v.Some? && v.value.Table? {
      var f := Fields(v.value, ["keychain", "env", "command"]).value;
      LiteralTextIsSteady(f[0]);
      LiteralTextIsSteady(f[1]);
      LiteralTextIsSteady(f[2]);
    }
  }

  lemma LiteralValidatorIsSteady(v: Toml)
    requires !v.Arr? && DecodeValidator(v).Some?
    requires ItemsLiteral(Get(Some(v), "allow_functions")) && ItemsLiteral(Get(Some(v), "deny_functions"))
    ensures SteadyTexts(DecodeValidator(v).value.allow) && SteadyTexts(DecodeValidator(v).value.deny)
  {
    LiteralItemsAreSteady(Get(Some(v), "allow_functions"));
    LiteralItemsAreSteady(Get(Some(v), "deny_functions"));
  }

  lemma LiteralGuardrailIsSteady(v: Toml)
    requires !v.Arr? && DecodeGuardrail(v).Some? && LiteralText(Get(Some(v), "mode"))
    ensures SteadyText(DecodeGuardrail(v).value.mode)
  {
    LiteralTextIsSteady(Get(Some(v), "mode"));
  }

  lemma LiteralPiiIsSteady(v: Toml)
    requires !v.Arr? && DecodePii(v).Some?
    requires ItemsLiteral(Get(Some(v), "columns")) && LiteralText(Get(Some(v), "mode"))
    ensures SteadyTexts(DecodePii(v).value.columns) && SteadyText(DecodePii(v).value.mode)
  {
    LiteralItemsAreSteady(Get(Some(v), "columns"));
    LiteralTextIsSteady(Get(Some(v), "mode"));
  }

  lemma LiteralSectionsAreSteady(conn: Toml, f: seq<Option<Toml>>)
    requires ConnectionIsLiteral(conn) && ConnectionOfTables(conn) && |f| == 13 && DecodeSections(f).Some?
    requires var here := Some(conn);
             f[9] == Get(here, "validator") && f[11] == Get(here, "guardrail") && f[12] == Get(here, "pii")
    ensures SteadyRules(RulesOf(DecodeSections(f).value))
  {
    PartsOfConnection(conn);
    if f[9].Some? {
      LiteralValidatorIsSteady(f[9].value);
    }
    if f[11].Some? {
      LiteralGuardrailIsSteady(f[11].value);
    }
    if f[12].Some? {
      LiteralPiiIsSteady(f[12].value);
    }
  }

  lemma LiteralPlaceIsSteady(conn: Toml, f: seq<Option<Toml>>)
    requires ConnectionIsLiteral(conn) && |f| == 13 && DecodePlace(f).Some? && OneSourceEach(DecodePlace(f).value)
    requires var here := Some(conn);
             f[1] == Get(here, "url") && f[3] == Get(here, "password") && f[4] == Get(here, "allowed_dirs")
    ensures SteadyOrigin(OriginOf(DecodePlace(f).value))
  {
    PartsOfConnection(conn);
    LiteralSourceIsSteady(f[1]);
    LiteralSourceIsSteady(f[3]);
    LiteralItemsAreSteady(f[4]);
  }

  lemma NamesInOrder(conn: Toml)
    requires conn.Table? && Fields(conn, CONNECTION_FIELDS).Some?
    ensures var f, here := Fields(conn, CONNECTION_FIELDS).value, Some(conn);
            && f[1] == Get(here, "url") && f[3] == Get(here, "password") && f[4] == Get(here, "allowed_dirs")
            && f[9] == Get(here, "validator") && f[11] == Get(here, "guardrail") && f[12] == Get(here, "pii")
  {
  }

  lemma LiteralConnectionIsSteady(conn: Toml)
    requires ConnectionIsLiteral(conn) && ConnectionOfTables(conn) && DecodeConnection(conn).Some?
    requires OneSourceEach(DecodeConnection(conn).value.place)
    ensures SteadyRuling(RulingOf(DecodeConnection(conn).value))
  {
    NamesInOrder(conn);
    var f := Fields(conn, CONNECTION_FIELDS).value;
    LiteralPlaceIsSteady(conn, f);
    LiteralSectionsAreSteady(conn, f);
  }

  lemma LiteralConnectionsAreSteady(v: Toml, k: string)
    requires v.Table? && k in v.entries && DecodeConnections(v).Some?
    requires ConnectionIsLiteral(v.entries[k]) && ConnectionOfTables(v.entries[k])
    requires OneSourceEach(DecodeConnections(v).value[k].place)
    ensures SteadyRuling(RulingOf(DecodeConnections(v).value[k]))
  {
    LiteralConnectionIsSteady(v.entries[k]);
  }

  lemma LiteralAuditIsSteady(v: Toml)
    requires !v.Arr? && DecodeAudit(v).Some? && LiteralText(Get(Some(v), "path"))
    ensures SteadyText(DecodeAudit(v).value.path)
  {
    LiteralTextIsSteady(Get(Some(v), "path"));
  }

  /** What the check lets through, every section a table, is steady when decoded as written. */
  lemma CheckedIsSteady(v: Toml)
    requires PolicyIsLiteral(v) && SectionsAreTables(v) && Decode(v).Some? && Validated(Decode(v).value)
    ensures Steady(RulingsOf(Decode(v).value))
  {
    PartsOfPolicy(v);
    var c := Decode(v).value;
    var audit, connections := Get(Some(v), "audit"), Get(Some(v), "connections");
    if audit.Some? {
      LiteralAuditIsSteady(audit.value);
    }
    forall k | k in c.connections
      ensures SteadyRuling(RulingOf(c.connections[k]))
    {
      LiteralConnectionsAreSteady(connections.value, k);
    }
  }

  /** The environment cannot change the policy of a configuration whose sections are tables. */
  lemma EnvironmentsAgree(v: Toml, accepts: Settings -> bool)
    requires SectionsAreTables(v)
    ensures Agreement(v, accepts)
  {
    if AsWritten(v).Some? {
      CheckedIsSteady(v);
    }
    SteadyAgrees(v, accepts);
  }

  /** The policy that is loaded is the policy that is written. */
  lemma PolicyIsAsWritten(v: Toml, env: Env, accepts: Settings -> bool)
    requires SectionsAreTables(v) && PolicyUnder(v, env, accepts).Some?
    ensures AsWritten(v).Some? && PolicyUnder(v, env, accepts) == Some(RulingsOf(AsWritten(v).value))
  {
    SteadyLoads(v, env, accepts);
    CheckedIsSteady(v);
  }

  /**
   Loading step by step. Where the sections are tables, the policy that is loaded is the one that is
   written, whatever the environment and the later checks.
   */
  method Parse(v: Toml, env: Env, accepts: Settings -> bool) returns (r: Option<Settings>)
    ensures r == Load(v, env, accepts)
    ensures r.Some? && SectionsAreTables(v) ==>
              AsWritten(v).Some? && RulingsOf(r.value) == RulingsOf(AsWritten(v).value)
  {
    var checked := RejectEnvVarsInPolicy(v);
    if checked.Err? {
      return None;
    }
    var s :- Substitute(v, env);
    var c :- Decode(s);
    if !Validated(c) || !accepts(c) {
      return None;
    }
    if SectionsAreTables(v) {
      PolicyIsAsWritten(v, env, accepts);
    }
    return Some(c);
  }
}
