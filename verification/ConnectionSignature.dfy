/** The signature that stands for the settings of a database connection. Equal
    signatures must mean equal settings, or a cached one would hide a needed write. */
module ConnectionSignature {
  import opened Standard

  datatype ScopeMode = ActiveCompany | AuthorizedCompanies

  datatype Scope =
    | Maintenance(reason: string)
    | Tenant(companyId: nat, authorizedIds: seq<nat>, mode: ScopeMode)

  datatype Actor = Actor(id: string, name: string, requestId: Option<string>, ip: Option<string>,
                         sessionHash: Option<string>, reason: Option<string>)

  /** What the code running the request has in its two context stores. */
  datatype Context = Context(scope: Option<Scope>, actor: Option<Actor>)

  /** The process environment; an unset variable is the empty string. */
  datatype Env = Env(edgeMode: string, edgeSiteId: string, edgeEpoch: string, cloudEpoch: string)

  datatype Settings = Settings(maintenance: string, companyId: string, authorizedIds: string, actor: seq<string>,
                               writerMode: string, writerSite: string, writerEpoch: string)

  // ---- What a context asks for -----------------------------------------------------------

  function Decimal(n: nat): string {
    (if n < 10 then "" else Decimal(n / 10)) + [('0' as int + n % 10) as char]
  }

  function JoinIds(ids: seq<nat>): string {
    if ids == [] then ""
    else if |ids| == 1 then Decimal(ids[0])
    else JoinIds(ids[..|ids| - 1]) + "," + Decimal(ids[|ids| - 1])
  }

  function ScopeSignature(scope: Option<Scope>): string {
    match scope
    case None => "unscoped"
    case Some(Maintenance(_)) => "maintenance"
    case Some(Tenant(id, _, ActiveCompany)) => "tenant:" + Decimal(id)
    case Some(Tenant(id, ids, AuthorizedCompanies)) => "tenant-authorized:" + (Decimal(id) + ([':'] + JoinIds(ids)))
  }

  function MaintenanceValue(scope: Option<Scope>): string {
    if scope.Some? && scope.value.Maintenance? then "on" else "off"
  }

  function CompanyValue(scope: Option<Scope>): string {
    if scope.Some? && scope.value.Tenant? then Decimal(scope.value.companyId) else ""
  }

  function AuthorizedValue(scope: Option<Scope>): string {
    if scope.Some? && scope.value.Tenant? && scope.value.mode.AuthorizedCompanies?
    then JoinIds(scope.value.authorizedIds)
    else ""
  }

  function OrEmpty(s: Option<string>): string { if s.Some? then s.value else "" }

  function ActorValues(actor: Option<Actor>): (values: seq<string>)
    ensures |values| == 6
  {
    match actor
    case None => ["", "", "", "", "", ""]
    case Some(a) => [a.id, a.name, OrEmpty(a.requestId), OrEmpty(a.ip), OrEmpty(a.sessionHash), OrEmpty(a.reason)]
  }

  function ActorSignature(actor: Option<Actor>): string {
    if actor.Some? then JsonArray(ActorValues(actor)) else ""
  }

  function WriterMode(env: Env): string { if env.edgeMode == "lan" then "lan-primary" else "cloud-primary" }
  function WriterSite(env: Env): string { if env.edgeMode == "lan" then env.edgeSiteId else "cloud" }
  function WriterEpoch(env: Env): string { if env.edgeMode == "lan" then env.edgeEpoch else env.cloudEpoch }

  function WriterSignature(env: Env): string {
    WriterMode(env) + (['|'] + (WriterSite(env) + (['|'] + WriterEpoch(env))))
  }

  function Signature(env: Env, ctx: Context): string {
    ScopeSignature(ctx.scope) + (['|'] + (ActorSignature(ctx.actor) + (['|'] + WriterSignature(env))))
  }

  function ValuesOf(env: Env, ctx: Context): Settings {
    Settings(MaintenanceValue(ctx.scope), CompanyValue(ctx.scope), AuthorizedValue(ctx.scope), ActorValues(ctx.actor),
             WriterMode(env), WriterSite(env), WriterEpoch(env))
  }

  // ---- What the settings say ------------------------------------------------------------------

  function ReadNat(s: string): int {
    if s == "" then 0 else 10 * ReadNat(s[..|s| - 1]) + (s[|s| - 1] as int - '0' as int)
  }

  /** A numeral without leading zeros. */
  predicate IsNumeral(s: string) {
    s != "" && (forall i :: 0 <= i < |s| ==> '0' <= s[i] <= '9') && (|s| > 1 ==> s[0] != '0')
  }

  predicate Reads(s: string, n: int) { IsNumeral(s) && ReadNat(s) == n }

  /** The parts of a text between its commas. */
  function Pieces(s: string): (r: seq<string>)
    ensures |r| > 0
  {
    if s == "" then [""]
    else
      var (front, last) := (s[..|s| - 1], s[|s| - 1]);
      var pieces := Pieces(front);
      if last == ',' then pieces + [""] else pieces[|pieces| - 1 := pieces[|pieces| - 1] + [last]]
  }

  predicate ReadsAll(s: string, ids: seq<nat>) {
    if ids == [] then s == ""
    else |Pieces(s)| == |ids| && forall i :: 0 <= i < |ids| ==> Reads(Pieces(s)[i], ids[i])
  }

  /** The settings are those of the context and the environment, one by one. */
  ghost predicate AsAsked(env: Env, ctx: Context, s: Settings) {
    ScopeAsAsked(ctx.scope, s) && ActorAsAsked(ctx.actor, s.actor) && WriterAsAsked(env, s)
  }

  /** Row security is off for maintenance alone; a tenant is its company, and the companies
      it is authorized for only where the request is made in that mode. */
  ghost predicate ScopeAsAsked(scope: Option<Scope>, s: Settings) {
    && (s.maintenance == "on" || s.maintenance == "off")
    && (s.maintenance == "on" <==> scope.Some? && scope.value.Maintenance?)
    && (if scope.Some? && scope.value.Tenant? then Reads(s.companyId, scope.value.companyId) else s.companyId == "")
    && (if scope.Some? && scope.value.Tenant? && scope.value.mode == AuthorizedCompanies
        then ReadsAll(s.authorizedIds, scope.value.authorizedIds) else s.authorizedIds == "")
  }

  /** The audit actor, field by field; a lease without one clears them all. */
  ghost predicate ActorAsAsked(actor: Option<Actor>, values: seq<string>) {
    && |values| == 6
    && (actor.None? ==> forall i :: 0 <= i < 6 ==> values[i] == "")
    && (actor.Some? ==> values[0] == actor.value.id && values[1] == actor.value.name
                        && Shows(values[2], actor.value.requestId) && Shows(values[3], actor.value.ip)
                        && Shows(values[4], actor.value.sessionHash) && Shows(values[5], actor.value.reason))
  }

  predicate Shows(value: string, field: Option<string>) {
    match field
    case Some(text) => value == text
    case None => value == ""
  }

  ghost predicate WriterAsAsked(env: Env, s: Settings) {
    && (env.edgeMode == "lan" ==>
          s.writerMode == "lan-primary" && s.writerSite == env.edgeSiteId && s.writerEpoch == env.edgeEpoch)
    && (env.edgeMode != "lan" ==>
          s.writerMode == "cloud-primary" && s.writerSite == "cloud" && s.writerEpoch == env.cloudEpoch)
  }

  lemma {:induction false} NumeralNext(s: string, c: char)
    requires IsNumeral(s) && s[0] != '0' && '0' <= c <= '9'
    ensures IsNumeral(s + [c]) && (s + [c])[0] == s[0]
    ensures ReadNat(s + [c]) == 10 * ReadNat(s) + (c as int - '0' as int)
  {
    assert (s + [c])[..|s|] == s;
  }

  lemma {:induction false} OneDigit(c: char)
    requires '0' <= c <= '9'
    ensures IsNumeral([c]) && ReadNat([c]) == c as int - '0' as int
  {
    assert [c][..0] == "";
  }

  lemma {:induction false} DecimalReads(n: nat)
    ensures Reads(Decimal(n), n) && (n > 0 ==> Decimal(n)[0] != '0')
  {
    var c := ('0' as int + n % 10) as char;
    if n >= 10 {
      DecimalReads(n / 10);
      NumeralNext(Decimal(n / 10), c);
      assert n == 10 * (n / 10) + n % 10;
    } else {
      OneDigit(c);
      assert Decimal(n) == [c];
    }
  }

  lemma {:induction false} PiecesNext(s: string, t: string)
    requires ',' !in t
    ensures Pieces(s + ([','] + t)) == Pieces(s) + [t]
  {
    var all := s + ([','] + t);
    if t == "" {
      assert all[..|all| - 1] == s;
    } else {
      var front, last := t[..|t| - 1], t[|t| - 1];
      PiecesNext(s, front);
      assert all[..|all| - 1] == s + ([','] + front);
      assert front + [last] == t;
    }
  }

  lemma {:induction false} OnePiece(t: string)
    requires ',' !in t
    ensures Pieces(t) == [t]
  {
    if t != "" {
      OnePiece(t[..|t| - 1]);
      assert t[..|t| - 1] + [t[|t| - 1]] == t;
    }
  }

  lemma {:induction false} NumeralHasNoComma(n: nat)
    ensures ',' !in Decimal(n)
  {
    DecimalReads(n);
  }

  function NumeralOf(): nat -> string { (n: nat) => Decimal(n) }

  lemma {:induction false} JoinNext(ids: seq<nat>, last: nat)
    requires ids != []
    ensures JoinIds(ids + [last]) == JoinIds(ids) + ([','] + Decimal(last))
  {
    assert (ids + [last])[..|ids|] == ids;
    Regroup(JoinIds(ids), ",", Decimal(last));
  }

  lemma {:induction false} NumeralsNext(ids: seq<nat>, last: nat)
    ensures Map(NumeralOf(), ids + [last]) == Map(NumeralOf(), ids) + [Decimal(last)]
  {
  }

  lemma {:induction false} JoinPieces(ids: seq<nat>)
    requires ids != []
    ensures Pieces(JoinIds(ids)) == Map(NumeralOf(), ids)
  {
    var front, last := ids[..|ids| - 1], ids[|ids| - 1];
    assert ids == front + [last];
    NumeralHasNoComma(last);
    NumeralsNext(front, last);
    if front == [] {
      OnePiece(Decimal(last));
    } else {
      JoinPieces(front);
      JoinNext(front, last);
      PiecesNext(JoinIds(front), Decimal(last));
    }
  }

  lemma {:induction false} JoinReads(ids: seq<nat>)
    ensures ReadsAll(JoinIds(ids), ids)
  {
    if ids != [] {
      JoinPieces(ids);
      forall i | 0 <= i < |ids|
        ensures Reads(Map(NumeralOf(), ids)[i], ids[i])
      {
        DecimalReads(ids[i]);
      }
    }
  }

  /** What is written to a session is what its context and environment ask for. */
  lemma {:induction false} ValuesAreAsked(env: Env, ctx: Context)
    ensures AsAsked(env, ctx, ValuesOf(env, ctx))
  {
    if ctx.scope.Some? && ctx.scope.value.Tenant? {
      DecimalReads(ctx.scope.value.companyId);
      JoinReads(ctx.scope.value.authorizedIds);
    }
  }

  // ---- JSON.stringify on an array of strings ------------------------------------------------

  function Hex(n: nat): char
    requires n < 16
  {
    (if n < 10 then '0' as int + n else 'a' as int + n - 10) as char
  }

  function Escape(c: char): string {
    var n := c as int;
    if n == 34 then "\\\""
    else if n == 92 then "\\\\"
    else if n == 8 then "\\b"
    else if n == 9 then "\\t"
    else if n == 10 then "\\n"
    else if n == 12 then "\\f"
    else if n == 13 then "\\r"
    else if n < 32 then "\\u00" + [Hex(n / 16), Hex(n % 16)]
    else [c]
  }

  /** The escaped text up to and with its closing quote. */
  function Quoted(s: string): string {
    if s == "" then "\"" else Escape(s[0]) + Quoted(s[1..])
  }

  /** The quoted texts, separated by commas, and the closing bracket. */
  function JsonItems(values: seq<string>): string
    decreases |values|, 0
  {
    if values == [] then "]" else "\"" + (Quoted(values[0]) + JsonMore(values[1..]))
  }

  function JsonMore(values: seq<string>): string
    decreases |values|, 1
  {
    if values == [] then "]" else "," + JsonItems(values)
  }

  function JsonArray(values: seq<string>): string { "[" + JsonItems(values) }

  // ---- Reading a signature back ----------------------------------------------------------------

  lemma {:induction false} SameHead(a: string, b: string, x: string, y: string)
    requires a + x == b + y && |a| == |b|
    ensures a == b && x == y
  {
    assert (a + x)[..|a|] == a && (b + y)[..|b|] == b;
    assert (a + x)[|a|..] == x && (b + y)[|b|..] == y;
  }

  /** A text up to the first separator can be read back. */
  lemma {:induction false} SplitAtSeparator(a: string, b: string, sep: char, x: string, y: string)
    requires a + ([sep] + x) == b + ([sep] + y) && sep !in a && sep !in b
    ensures a == b && x == y
  {
    var s := a + ([sep] + x);
    assert s[|a|] == sep && s[|b|] == sep;
    SameHead(a, b, [sep] + x, [sep] + y);
    SameHead([sep], [sep], x, y);
  }

  lemma {:induction false} EscapeReadsBack(c: char, d: char, x: string, y: string)
    requires Escape(c) + x == Escape(d) + y
    ensures c == d && x == y
  {
    var s := Escape(c) + x;
    assert s[0] == Escape(c)[0] && s[0] == Escape(d)[0];
    if |Escape(c)| > 1 {
      assert s[1] == Escape(c)[1] && s[1] == Escape(d)[1];
      if |Escape(c)| > 2 {
        assert s[4] == Escape(c)[4] && s[4] == Escape(d)[4];
        assert s[5] == Escape(c)[5] && s[5] == Escape(d)[5];
      }
    }
    SameHead(Escape(c), Escape(d), x, y);
  }

  lemma {:induction false} QuotedParts(s: string, x: string)
    ensures |Quoted(s)| > 0 && (Quoted(s)[0] == '"' <==> s == "")
    ensures s != "" ==> Quoted(s) + x == Escape(s[0]) + (Quoted(s[1..]) + x)
  {
    if s != "" { assert Quoted(s)[0] == Escape(s[0])[0]; }
  }

  lemma {:induction false} QuotedReadsBack(s: string, t: string, x: string, y: string)
    requires Quoted(s) + x == Quoted(t) + y
    ensures s == t && x == y
  {
    QuotedParts(s, x);
    QuotedParts(t, y);
    assert Quoted(s)[0] == (Quoted(s) + x)[0] == Quoted(t)[0];
    if s == "" {
      SameHead("\"", "\"", x, y);
    } else {
      EscapeReadsBack(s[0], t[0], Quoted(s[1..]) + x, Quoted(t[1..]) + y);
      QuotedReadsBack(s[1..], t[1..], x, y);
      assert s == [s[0]] + s[1..] && t == [t[0]] + t[1..];
    }
  }

  lemma {:induction false} ItemsTail(values: seq<string>, x: string)
    requires values != []
    ensures JsonItems(values) + x == "\"" + (Quoted(values[0]) + (JsonMore(values[1..]) + x))
  {
    Regroup("\"", Quoted(values[0]) + JsonMore(values[1..]), x);
    Regroup(Quoted(values[0]), JsonMore(values[1..]), x);
  }

  lemma {:induction false} ItemsReadBack(v: seq<string>, w: seq<string>, x: string, y: string)
    requires |v| == |w| && JsonItems(v) + x == JsonItems(w) + y
    ensures v == w && x == y
    decreases |v|, 0
  {
    if v == [] {
      SameHead("]", "]", x, y);
    } else {
      ItemsTail(v, x);
      ItemsTail(w, y);
      SameHead("\"", "\"", Quoted(v[0]) + (JsonMore(v[1..]) + x), Quoted(w[0]) + (JsonMore(w[1..]) + y));
      QuotedReadsBack(v[0], w[0], JsonMore(v[1..]) + x, JsonMore(w[1..]) + y);
      MoreReadsBack(v[1..], w[1..], x, y);
      assert v == [v[0]] + v[1..] && w == [w[0]] + w[1..];
    }
  }

  lemma {:induction false} MoreReadsBack(v: seq<string>, w: seq<string>, x: string, y: string)
    requires |v| == |w| && JsonMore(v) + x == JsonMore(w) + y
    ensures v == w && x == y
    decreases |v|, 1
  {
    if v == [] {
      SameHead("]", "]", x, y);
    } else {
      Regroup(",", JsonItems(v), x);
      Regroup(",", JsonItems(w), y);
      SameHead(",", ",", JsonItems(v) + x, JsonItems(w) + y);
      ItemsReadBack(v, w, x, y);
    }
  }

  /** The actor's part can be told from what follows it, which starts with a bar. */
  lemma {:induction false} ActorReadsBack(a: Option<Actor>, b: Option<Actor>, x: string, y: string)
    requires ActorSignature(a) + (['|'] + x) == ActorSignature(b) + (['|'] + y)
    ensures ActorValues(a) == ActorValues(b) && x == y
  {
    ActorStart(a, x);
    ActorStart(b, y);
    if a.Some? {
      var v, w := ActorValues(a), ActorValues(b);
      Regroup("[", JsonItems(v), ['|'] + x);
      Regroup("[", JsonItems(w), ['|'] + y);
      SameHead("[", "[", JsonItems(v) + (['|'] + x), JsonItems(w) + (['|'] + y));
      ItemsReadBack(v, w, ['|'] + x, ['|'] + y);
    }
    SameHead(ActorSignature(a), ActorSignature(b), ['|'] + x, ['|'] + y);
    SameHead(['|'], ['|'], x, y);
  }

  lemma {:induction false} ActorStart(actor: Option<Actor>, x: string)
    ensures (ActorSignature(actor) + (['|'] + x))[0] == if actor.Some? then '[' else '|'
  {
  }

  predicate IsDigit(c: char) { '0' <= c <= '9' }

  lemma {:induction false} DecimalIsDigits(n: nat)
    ensures forall c :: c in Decimal(n) ==> IsDigit(c)
  {
    if n >= 10 { DecimalIsDigits(n / 10); }
  }

  lemma {:induction false} JoinIsDigitsAndCommas(ids: seq<nat>)
    ensures forall c :: c in JoinIds(ids) ==> IsDigit(c) || c == ','
  {
    if |ids| == 1 {
      DecimalIsDigits(ids[0]);
    } else if |ids| > 1 {
      JoinIsDigitsAndCommas(ids[..|ids| - 1]);
      DecimalIsDigits(ids[|ids| - 1]);
    }
  }

  lemma {:induction false} ScopeHasNoBar(scope: Option<Scope>)
    ensures '|' !in ScopeSignature(scope)
  {
    if scope.Some? && scope.value.Tenant? {
      DecimalIsDigits(scope.value.companyId);
      JoinIsDigitsAndCommas(scope.value.authorizedIds);
    }
  }

  /** Which of the four kinds of signature it is shows in its first seven letters. */
  function Kind(scope: Option<Scope>): int {
    match scope
    case None => 0
    case Some(Maintenance(_)) => 1
    case Some(Tenant(_, _, ActiveCompany)) => 2
    case Some(Tenant(_, _, AuthorizedCompanies)) => 3
  }

  lemma {:induction false} KindShows(scope: Option<Scope>)
    ensures |ScopeSignature(scope)| >= 7
    ensures Kind(scope) == if ScopeSignature(scope)[0] == 'u' then 0 else if ScopeSignature(scope)[0] == 'm' then 1
                           else if ScopeSignature(scope)[6] == ':' then 2 else 3
  {
    if Kind(scope) == 2 { assert |Decimal(scope.value.companyId)| > 0; }
  }

  lemma {:induction false} ScopeReadsBack(a: Option<Scope>, b: Option<Scope>)
    requires ScopeSignature(a) == ScopeSignature(b)
    ensures MaintenanceValue(a) == MaintenanceValue(b) && CompanyValue(a) == CompanyValue(b)
    ensures AuthorizedValue(a) == AuthorizedValue(b)
  {
    KindShows(a);
    KindShows(b);
    if Kind(a) == 2 {
      SameHead("tenant:", "tenant:", CompanyValue(a), CompanyValue(b));
    } else if Kind(a) == 3 {
      DecimalIsDigits(a.value.companyId);
      DecimalIsDigits(b.value.companyId);
      SameHead("tenant-authorized:", "tenant-authorized:",
               CompanyValue(a) + ([':'] + AuthorizedValue(a)), CompanyValue(b) + ([':'] + AuthorizedValue(b)));
      SplitAtSeparator(CompanyValue(a), CompanyValue(b), ':', AuthorizedValue(a), AuthorizedValue(b));
    }
  }

  /** What any two equal signatures agree on. */
  lemma {:induction false} SignatureReadsBack(e: Env, a: Context, f: Env, b: Context)
    requires Signature(e, a) == Signature(f, b)
    ensures WriterSignature(e) == WriterSignature(f)
    ensures ValuesOf(e, a) == ValuesOf(e, b)
  {
    ScopeHasNoBar(a.scope);
    ScopeHasNoBar(b.scope);
    SplitAtSeparator(ScopeSignature(a.scope), ScopeSignature(b.scope), '|',
                     ActorSignature(a.actor) + (['|'] + WriterSignature(e)),
                     ActorSignature(b.actor) + (['|'] + WriterSignature(f)));
    ScopeReadsBack(a.scope, b.scope);
    ActorReadsBack(a.actor, b.actor, WriterSignature(e), WriterSignature(f));
  }

  /** The writer's own fields are not escaped: the bars of these can be told from
      the ones that separate them. */
  predicate Unambiguous(e: Env) {
    e.edgeMode != "lan" || ('|' !in e.edgeSiteId && '|' !in e.edgeEpoch)
  }

  lemma {:induction false} WriterReadsBack(e: Env, f: Env)
    requires WriterSignature(e) == WriterSignature(f) && Unambiguous(e)
    ensures WriterMode(e) == WriterMode(f) && WriterSite(e) == WriterSite(f) && WriterEpoch(e) == WriterEpoch(f)
  {
    assert '|' !in WriterMode(e) && '|' !in WriterMode(f);
    var x, y := WriterSite(e) + (['|'] + WriterEpoch(e)), WriterSite(f) + (['|'] + WriterEpoch(f));
    SplitAtSeparator(WriterMode(e), WriterMode(f), '|', x, y);
    if e.edgeMode == "lan" {
      assert y[|WriterSite(f)|] == '|';
      assert x[|WriterSite(f)|] == '|' && |WriterSite(f)| == |WriterSite(e)|;
    }
    SameHead(WriterSite(e), WriterSite(f), ['|'] + WriterEpoch(e), ['|'] + WriterEpoch(f));
    SameHead(['|'], ['|'], WriterEpoch(e), WriterEpoch(f));
  }

  /** Equal signatures mean equal settings, whatever the ids and actor texts contain:
      within one environment, and from an unambiguous one to any other. */
  lemma {:induction false} EqualSignaturesEqualSettings(e: Env, a: Context, f: Env, b: Context)
    requires (e == f || Unambiguous(e)) && Signature(e, a) == Signature(f, b)
    ensures ValuesOf(e, a) == ValuesOf(f, b)
  {
    SignatureReadsBack(e, a, f, b);
    if e != f { WriterReadsBack(e, f); }
  }

  /** Equal signatures mean equal settings, whoever the other environment is. */
  ghost predicate NeverClashes(e: Env) {
    forall f, a, b :: Signature(e, a) == Signature(f, b) ==> ValuesOf(e, a) == ValuesOf(f, b)
  }

  lemma {:induction false} SplitAtBar(s: string) returns (p: string, q: string)
    requires '|' in s
    ensures s == p + (['|'] + q) && |p| < |s|
  {
    var i :| 0 <= i < |s| && s[i] == '|';
    p, q := s[..i], s[i + 1..];
  }

  /** Moving the separator to another bar gives a different environment with the same writer signature. */
  lemma {:induction false} AnotherEnv(e: Env) returns (f: Env)
    requires !Unambiguous(e)
    ensures WriterSignature(f) == WriterSignature(e) && WriterSite(f) != WriterSite(e)
  {
    var site, epoch := e.edgeSiteId, e.edgeEpoch;
    if '|' in site {
      var p, q := SplitAtBar(site);
      f := Env("lan", p, q + (['|'] + epoch), "");
      Regroup(p, ['|'] + q, ['|'] + epoch);
      Regroup(['|'], q, ['|'] + epoch);
    } else {
      var p, q := SplitAtBar(epoch);
      f := Env("lan", site + (['|'] + p), q, "");
      Regroup(site, ['|'] + p, ['|'] + q);
      Regroup(['|'], p, ['|'] + q);
    }
  }

  /** An environment never shares a signature with one of other settings if and only
      if it is not a LAN site, or no bar stands in its site id or its epoch. */
  lemma {:induction false} NeverClashesIff(e: Env)
    ensures NeverClashes(e) <==> Unambiguous(e)
  {
    if Unambiguous(e) {
      forall f, a, b | Signature(e, a) == Signature(f, b)
        ensures ValuesOf(e, a) == ValuesOf(f, b)
      {
        EqualSignaturesEqualSettings(e, a, f, b);
      }
    } else {
      var f := AnotherEnv(e);
      var ctx := Context(None, None);
      assert Signature(e, ctx) == Signature(f, ctx) && ValuesOf(e, ctx) != ValuesOf(f, ctx);
    }
  }
}
