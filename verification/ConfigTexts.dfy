/** A configuration written out field by field, each under its own name, is decoded as what was written. */
module ConfigTexts {
  import opened Outcomes
  import opened ConfigCheck
  import opened ConfigDecode

  // ----- one section -----

  predicate Distinct(names: seq<string>) {
    forall i, j :: 0 <= i < j < |names| ==> names[i] != names[j]
  }

  /** The table with these fields, as far as they have values. */
  function Section(names: seq<string>, values: seq<Option<Toml>>): Toml
    requires |names| == |values| && Distinct(names)
  {
    Table(map i | 0 <= i < |names| && values[i].Some? :: names[i] := values[i].value)
  }

  lemma SectionIsRead(names: seq<string>, values: seq<Option<Toml>>)
    requires |names| == |values| && Distinct(names)
    ensures Fields(Section(names, values), names) == Some(values)
  {
    var table := Section(names, values);
    assert forall k :: k in table.entries ==> k in names;
    forall i | 0 <= i < |names|
      ensures Get(Some(table), names[i]) == values[i]
    {
      if values[i].Some? {
        assert names[i] in table.entries;
      }
    }
    assert Fields(table, names).value == values;
  }

  function Given<T>(x: Option<T>, write: T -> Toml): Option<Toml> {
    if x.Some? then Some(write(x.value)) else None
  }

  lemma GivenIsRead<T>(x: Option<T>, write: T -> Toml, decode: Toml -> Option<T>)
    requires x.Some? ==> decode(write(x.value)) == Some(x.value)
    ensures Optional(Given(x, write), decode) == Some(x)
  {
  }

  // ----- values -----

  function Text(t: string): Toml {
    Str(t)
  }

  function Texts(ts: seq<string>): Toml {
    Arr(seq(|ts|, i requires 0 <= i < |ts| => Str(ts[i])))
  }

  function Count(n: nat): Toml {
    Integer(n)
  }

  function Flag(truth: bool): Toml {
    Boolean(truth)
  }

  function Itself(v: Toml): Toml {
    v
  }

  lemma TextsAreRead(ts: seq<string>)
    ensures DecodeTexts(Texts(ts)) == Some(ts)
  {
    assert DecodeTexts(Texts(ts)).value == ts;
  }

  lemma TextGiven(t: Option<string>)
    ensures Optional(Given(t, Text), DecodeText) == Some(t)
  {
    GivenIsRead(t, Text, DecodeText);
  }

  lemma TextsGiven(ts: Option<seq<string>>)
    ensures Optional(Given(ts, Texts), DecodeTexts) == Some(ts)
  {
    if ts.Some? {
      TextsAreRead(ts.value);
    }
    GivenIsRead(ts, Texts, DecodeTexts);
  }

  lemma CountGiven(n: Option<nat>)
    ensures Optional(Given(n, Count), DecodeCount) == Some(n)
  {
    GivenIsRead(n, Count, DecodeCount);
  }

  lemma FlagGiven(truth: Option<bool>)
    ensures Optional(Given(truth, Flag), DecodeFlag) == Some(truth)
  {
    GivenIsRead(truth, Flag, DecodeFlag);
  }

  // ----- the sections -----

  const REF_NAMES := ["keychain", "env", "command"]
  const VALIDATOR_NAMES := ["allow_functions", "deny_functions"]
  const GUARDRAIL_NAMES := ["mode", "max_cost", "max_rows"]
  const PII_NAMES := ["columns", "mode"]
  const SSH_NAMES := ["host", "remote", "control_persist", "reuse_forward"]
  const LIMIT_NAMES := ["row_limit", "timeout_secs", "max_row_limit", "max_timeout_secs"]
  const AUDIT_NAMES := ["enabled", "path", "log_responses"]

  lemma NamesDiffer()
    ensures Distinct(REF_NAMES) && Distinct(VALIDATOR_NAMES) && Distinct(GUARDRAIL_NAMES) && Distinct(PII_NAMES)
    ensures Distinct(SSH_NAMES) && Distinct(AUDIT_NAMES)
  {
    assert "keychain"[0] == 'k' && "env"[0] == 'e' && "command"[0] == 'c';
    assert "allow_functions"[0] == 'a' && "deny_functions"[0] == 'd';
    assert "mode"[1] == 'o' && "max_cost"[4] == 'c' && "max_rows"[4] == 'r';
    assert "host"[0] == 'h' && "remote"[2] == 'm' && "control_persist"[0] == 'c' && "reuse_forward"[2] == 'u';
    assert "enabled"[0] == 'e' && "path"[0] == 'p' && "log_responses"[0] == 'l';
  }

  function WriteRef(r: SecretRef): Toml {
    NamesDiffer();
    Section(REF_NAMES, [Given(r.keychain, Text), Given(r.env, Text), Given(r.command, Text)])
  }

  lemma RefIsRead(r: SecretRef)
    ensures DecodeRef(WriteRef(r)) == Some(r)
  {
    NamesDiffer();
    SectionIsRead(REF_NAMES, [Given(r.keychain, Text), Given(r.env, Text), Given(r.command, Text)]);
    TextGiven(r.keychain);
    TextGiven(r.env);
    TextGiven(r.command);
  }

  function WriteSecret(s: Secret): Toml {
    match s
    case Written(text) => Str(text)
    case Elsewhere(source) => WriteRef(source)
  }

  lemma SecretGiven(s: Option<Secret>)
    ensures Optional(Given(s, WriteSecret), DecodeSecret) == Some(s)
  {
    if s.Some? && s.value.Elsewhere? {
      RefIsRead(s.value.source);
    }
    GivenIsRead(s, WriteSecret, DecodeSecret);
  }

  function WriteValidator(v: Validator): Toml {
    NamesDiffer();
    Section(VALIDATOR_NAMES, [Given(v.allow, Texts), Given(v.deny, Texts)])
  }

  lemma ValidatorIsRead(v: Validator)
    ensures DecodeValidator(WriteValidator(v)) == Some(v)
  {
    NamesDiffer();
    SectionIsRead(VALIDATOR_NAMES, [Given(v.allow, Texts), Given(v.deny, Texts)]);
    TextsGiven(v.allow);
    TextsGiven(v.deny);
  }

  /** A cost limit is a number, written with a point or without. */
  predicate Numeric(g: Option<Guardrail>) {
    g.Some? && g.value.maxCost.Some? ==> g.value.maxCost.value.Float? || g.value.maxCost.value.Integer?
  }

  function WriteGuardrail(g: Guardrail): Toml {
    NamesDiffer();
    Section(GUARDRAIL_NAMES, [Given(g.mode, Text), Given(g.maxCost, Itself), Given(g.maxRows, Count)])
  }

  lemma GuardrailIsRead(g: Guardrail)
    requires Numeric(Some(g))
    ensures DecodeGuardrail(WriteGuardrail(g)) == Some(g)
  {
    NamesDiffer();
    SectionIsRead(GUARDRAIL_NAMES, [Given(g.mode, Text), Given(g.maxCost, Itself), Given(g.maxRows, Count)]);
    TextGiven(g.mode);
    GivenIsRead(g.maxCost, Itself, DecodeNumber);
    CountGiven(g.maxRows);
  }

  function WritePii(p: Pii): Toml {
    NamesDiffer();
    Section(PII_NAMES, [Given(p.columns, Texts), Given(p.mode, Text)])
  }

  lemma PiiIsRead(p: Pii)
    ensures DecodePii(WritePii(p)) == Some(p)
  {
    NamesDiffer();
    SectionIsRead(PII_NAMES, [Given(p.columns, Texts), Given(p.mode, Text)]);
    TextsGiven(p.columns);
    TextGiven(p.mode);
  }

  function WriteSsh(s: Ssh): Toml {
    NamesDiffer();
    Section(SSH_NAMES, [Given(s.host, Text), Given(s.remote, Text), Given(s.controlPersist, Text),
                        Given(s.reuseForward, Flag)])
  }

  lemma SshIsRead(s: Ssh)
    ensures DecodeSsh(WriteSsh(s)) == Some(s)
  {
    NamesDiffer();
    SectionIsRead(SSH_NAMES, [Given(s.host, Text), Given(s.remote, Text), Given(s.controlPersist, Text),
                              Given(s.reuseForward, Flag)]);
    TextGiven(s.host);
    TextGiven(s.remote);
    TextGiven(s.controlPersist);
    FlagGiven(s.reuseForward);
  }

  function WriteAudit(a: Audit): Toml {
    NamesDiffer();
    Section(AUDIT_NAMES, [Given(a.enabled, Flag), Given(a.path, Text), Given(a.logResponses, Flag)])
  }

  lemma AuditIsRead(a: Audit)
    ensures DecodeAudit(WriteAudit(a)) == Some(a)
  {
    NamesDiffer();
    SectionIsRead(AUDIT_NAMES, [Given(a.enabled, Flag), Given(a.path, Text), Given(a.logResponses, Flag)]);
    FlagGiven(a.enabled);
    TextGiven(a.path);
    FlagGiven(a.logResponses);
  }

  // ----- limits, defaults, connections -----

  function LimitValues(l: Limits): seq<Option<Toml>> {
    [Given(l.row, Count), Given(l.timeout, Count), Given(l.maxRow, Count), Given(l.maxTimeout, Count)]
  }

  lemma LimitsAreRead(l: Limits, f: seq<Option<Toml>>, at: nat)
    requires at + 4 <= |f| && f[at..at + 4] == LimitValues(l)
    ensures DecodeLimits(f, at) == Some(l)
  {
    var own := f[at..at + 4];
    assert own[0] == f[at] && own[1] == f[at + 1] && own[2] == f[at + 2] && own[3] == f[at + 3];
    CountGiven(l.row);
    CountGiven(l.timeout);
    CountGiven(l.maxRow);
    CountGiven(l.maxTimeout);
  }

  lemma LimitNamesDiffer()
    ensures Distinct(LIMIT_NAMES + ["format"])
  {
    assert "row_limit"[0] == 'r' && "timeout_secs"[0] == 't' && "format"[0] == 'f';
    assert "max_row_limit"[4] == 'r' && "max_timeout_secs"[4] == 't';
  }

  function WriteDefaults(d: Defaults): Toml {
    LimitNamesDiffer();
    Section(LIMIT_NAMES + ["format"], LimitValues(d.limits) + [Given(d.format, Text)])
  }

  lemma DefaultsAreRead(d: Defaults)
    ensures DecodeDefaults(WriteDefaults(d)) == Some(d)
  {
    LimitNamesDiffer();
    var f := LimitValues(d.limits) + [Given(d.format, Text)];
    SectionIsRead(LIMIT_NAMES + ["format"], f);
    assert LIMIT_NAMES + ["format"] == ["row_limit", "timeout_secs", "max_row_limit", "max_timeout_secs", "format"];
    assert f[0..4] == LimitValues(d.limits);
    LimitsAreRead(d.limits, f, 0);
    TextGiven(d.format);
  }

  const NAMES_OF_CONNECTION: seq<string> :=
    ["engine", "url", "path", "password", "allowed_dirs"] + LIMIT_NAMES + ["validator", "ssh", "guardrail", "pii"]

  lemma ConnectionNamesDiffer()
    ensures Distinct(NAMES_OF_CONNECTION)
  {
    assert "url"[0] == 'u' && "ssh"[0] == 's' && "pii"[0] == 'p';
    assert "allowed_dirs"[0] == 'a' && "timeout_secs"[0] == 't';
    assert "row_limit"[0] == 'r' && "validator"[0] == 'v' && "guardrail"[0] == 'g';
  }

  function ConnectionValues(c: Connection): seq<Option<Toml>> {
    [Some(Str(c.place.engine)), Given(c.place.url, WriteSecret), Given(c.place.path, Text),
     Given(c.place.password, WriteSecret), Some(Texts(c.place.allowedDirs))]
    + LimitValues(c.limits)
    + [Given(c.sections.validator, WriteValidator), Given(c.sections.ssh, WriteSsh),
       Given(c.sections.guardrail, WriteGuardrail), Given(c.sections.pii, WritePii)]
  }

  function WriteConnection(c: Connection): Toml {
    ConnectionNamesDiffer();
    Section(NAMES_OF_CONNECTION, ConnectionValues(c))
  }

  lemma PlaceIsRead(c: Connection)
    ensures DecodePlace(ConnectionValues(c)) == Some(c.place)
  {
    SecretGiven(c.place.url);
    TextGiven(c.place.path);
    SecretGiven(c.place.password);
    TextsAreRead(c.place.allowedDirs);
  }

  lemma ValidatorGiven(v: Option<Validator>)
    ensures Optional(Given(v, WriteValidator), DecodeValidator) == Some(v)
  {
    if v.Some? {
      ValidatorIsRead(v.value);
    }
    GivenIsRead(v, WriteValidator, DecodeValidator);
  }

  lemma SshGiven(s: Option<Ssh>)
    ensures Optional(Given(s, WriteSsh), DecodeSsh) == Some(s)
  {
    if s.Some? {
      SshIsRead(s.value);
    }
    GivenIsRead(s, WriteSsh, DecodeSsh);
  }

  lemma GuardrailGiven(g: Option<Guardrail>)
    requires Numeric(g)
    ensures Optional(Given(g, WriteGuardrail), DecodeGuardrail) == Some(g)
  {
    if g.Some? {
      GuardrailIsRead(g.value);
    }
    GivenIsRead(g, WriteGuardrail, DecodeGuardrail);
  }

  lemma PiiGiven(p: Option<Pii>)
    ensures Optional(Given(p, WritePii), DecodePii) == Some(p)
  {
    if p.Some? {
      PiiIsRead(p.value);
    }
    GivenIsRead(p, WritePii, DecodePii);
  }

  lemma SectionsAreRead(c: Connection)
    requires Numeric(c.sections.guardrail)
    ensures DecodeSections(ConnectionValues(c)) == Some(c.sections)
  {
    ValidatorGiven(c.sections.validator);
    SshGiven(c.sections.ssh);
    GuardrailGiven(c.sections.guardrail);
    PiiGiven(c.sections.pii);
  }

  lemma LimitsOfConnection(c: Connection)
    ensures DecodeLimits(ConnectionValues(c), 5) == Some(c.limits)
  {
    assert ConnectionValues(c)[5..5 + 4] == LimitValues(c.limits);
    LimitsAreRead(c.limits, ConnectionValues(c), 5);
  }

  lemma ConnectionIsRead(c: Connection)
    requires Numeric(c.sections.guardrail)
    ensures DecodeConnection(WriteConnection(c)) == Some(c)
  {
    ConnectionNamesDiffer();
    SectionIsRead(NAMES_OF_CONNECTION, ConnectionValues(c));
    assert NAMES_OF_CONNECTION == CONNECTION_FIELDS;
    PlaceIsRead(c);
    LimitsOfConnection(c);
    SectionsAreRead(c);
  }

  // ----- the file -----

  function WriteConnections(connections: map<string, Connection>): Toml {
    Table(map k | k in connections :: WriteConnection(connections[k]))
  }

  function WriteSettings(c: Settings): Toml {
    Table(map["defaults" := WriteDefaults(Defaults(c.defaults, c.format)),
              "connections" := WriteConnections(c.connections),
              "audit" := WriteAudit(c.audit)])
  }

  lemma ConnectionsAreRead(connections: map<string, Connection>)
    requires forall k :: k in connections ==> Numeric(connections[k].sections.guardrail)
    ensures DecodeConnections(WriteConnections(connections)) == Some(connections)
  {
    var written := WriteConnections(connections);
    forall k | k in connections
      ensures DecodeConnection(written.entries[k]) == Some(connections[k])
    {
      ConnectionIsRead(connections[k]);
    }
    assert DecodeConnections(written).value == connections;
  }

  lemma PartsAreRead(c: Settings)
    requires forall k :: k in c.connections ==> Numeric(c.connections[k].sections.guardrail)
    ensures DecodeParts(Some(WriteDefaults(Defaults(c.defaults, c.format))), Some(WriteConnections(c.connections)),
                        Some(WriteAudit(c.audit)))
         == Some(c)
  {
    DefaultsAreRead(Defaults(c.defaults, c.format));
    ConnectionsAreRead(c.connections);
    AuditIsRead(c.audit);
  }

  /** What is written under the names of the sections and their fields is what is decoded, nothing else. */
  lemma WrittenIsDecoded(c: Settings)
    requires forall k :: k in c.connections ==> Numeric(c.connections[k].sections.guardrail)
    ensures Decode(WriteSettings(c)) == Some(c)
  {
    PartsAreRead(c);
    FileIsRead(WriteDefaults(Defaults(c.defaults, c.format)), WriteConnections(c.connections), WriteAudit(c.audit));
  }

  lemma FileIsRead(defaults: Toml, connections: Toml, audit: Toml)
    ensures Decode(Table(map["defaults" := defaults, "connections" := connections, "audit" := audit]))
            == DecodeParts(Some(defaults), Some(connections), Some(audit))
  {
    assert "defaults"[0] == 'd' && "connections"[0] == 'c' && "audit"[0] == 'a';
  }
}
