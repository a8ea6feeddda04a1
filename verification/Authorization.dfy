/** Who may do what: the decision on an operation, and the separate inspection of a token. */
module Authorization {
  import opened Text

  datatype Role = Retrieval | Writer | Orchestrator | System | Operator

  datatype Transport = Internal | Cli | Http | Mcp | Automation

  datatype Command =
    | ExecuteCodingTask | ListAgentTraces | ShowToolOutput | SearchContext | SearchSessionArchives
    | AssembleAgentContext | GetContextPacket | FetchDecisionSummary | DraftNote | CreateSessionArchive
    | CreateRefreshDraft | CreateRefreshDrafts | ImportResource | ValidateNote | PromoteNote | QueryHistory

  datatype AdminAction =
    | ViewAuthStatus | ViewIssuedTokens | IssueAuthToken | InspectAuthToken | RevokeAuthToken | ViewFreshnessStatus

  function CommandRoles(c: Command): set<Role> {
    match c
    case ExecuteCodingTask => {Operator, System}
    case ShowToolOutput => {Operator, System}
    case CreateSessionArchive => {Operator, System}
    case SearchContext => {Retrieval, Operator, Orchestrator, System}
    case SearchSessionArchives => {Retrieval, Operator, Orchestrator, System}
    case AssembleAgentContext => {Retrieval, Operator, Orchestrator, System}
    case GetContextPacket => {Retrieval, Operator, Orchestrator, System}
    case FetchDecisionSummary => {Retrieval, Operator, Orchestrator, System}
    case DraftNote => {Writer, Operator, Orchestrator, System}
    case _ => {Operator, Orchestrator, System}
  }

  function AdminRoles(a: AdminAction): set<Role> {
    if a.ViewFreshnessStatus? then {Operator, Orchestrator, System} else {Operator, System}
  }

  datatype Window = Window(from: Option<int>, until: Option<int>)

  datatype Credential = Credential(token: string, window: Window)

  /** A registered actor; an empty set of transports, commands or actions means no limit. */
  datatype Entry = Entry(
    role: Role,
    tokens: seq<Credential>,
    source: Option<string>,
    enabled: bool,
    transports: set<Transport>,
    commands: set<Command>,
    actions: set<AdminAction>,
    window: Window)

  /** The registry in its order of insertion. */
  datatype Registered = Registered(actorId: string, entry: Entry)

  /** The content of an issued token; an absent or malformed date is told apart by the date parser. */
  datatype Claims = Claims(
    tokenId: Option<string>,
    actorId: string,
    role: Role,
    source: Option<string>,
    transports: set<Transport>,
    commands: set<Command>,
    actions: set<AdminAction>,
    validFrom: Option<string>,
    validUntil: Option<string>)

  datatype Actor = Actor(actorId: string, role: Role, transport: Transport, source: string, token: Option<string>)

  datatype Scope = Scope(command: Option<Command>, action: Option<AdminAction>)

  /** The fixed part of a policy: how tokens are verified and dates parsed is given from outside. */
  datatype Policy = Policy(
    enforced: bool,
    allowAnonymousInternal: bool,
    registry: seq<Registered>,
    issues: bool,
    verify: string -> Option<Claims>,
    parse: string -> Option<int>,
    requireMatch: bool,
    revokedElsewhere: string -> bool)

  datatype Why =
    | NoActorId | NoSource | CommandRole | AdminRole | NotRegistered | Disabled | OutsideWindow | WrongRole
    | TransportLimit | CommandLimit | ActionLimit | SourceLimit
    | NoToken | InactiveToken | WrongToken | NoTokenConfigured

  datatype Verdict = Denied(why: Why) | ByIssued | ByStatic | WithoutToken

  // ----- Parts of the decision -----

  predicate Within(now: int, w: Window) {
    (w.from.Some? ==> now >= w.from.value) && (w.until.Some? ==> now <= w.until.value)
  }

  /** `registry.get(actorId)` */
  function Lookup(registry: seq<Registered>, actorId: string): (r: Option<Entry>)
    ensures r.Some? ==> exists i :: 0 <= i < |registry| && registry[i] == Registered(actorId, r.value)
  {
    if registry == [] then None
    else if registry[0].actorId == actorId then Some(registry[0].entry)
    else Lookup(registry[1..], actorId)
  }

  predicate Revoked(p: Policy, revoked: set<string>, tokenId: string) {
    Trim(tokenId) in revoked || p.revokedElsewhere(Trim(tokenId))
  }

  /** The bound of a window as an issued token states it; None when it is there but is no date. */
  function Instant(parse: string -> Option<int>, value: Option<string>): Option<Option<int>> {
    if value.None? || Trim(value.value) == "" then Some(None)
    else if parse(value.value).None? then None
    else Some(parse(value.value))
  }

  /** The verified content of a token with readable dates. */
  function Verified(p: Policy, token: string): (r: Option<Claims>)
    ensures r.Some? ==> p.issues
  {
    if !p.issues || p.verify(token).None? then None
    else
      var c := p.verify(token).value;
      if Instant(p.parse, c.validFrom).None? || Instant(p.parse, c.validUntil).None? then None else Some(c)
  }

  predicate ClaimsInForce(p: Policy, c: Claims, now: int) {
    && Instant(p.parse, c.validFrom).Some? && Instant(p.parse, c.validUntil).Some?
    && Within(now, Window(Instant(p.parse, c.validFrom).value, Instant(p.parse, c.validUntil).value))
  }

  predicate ClaimsRevoked(p: Policy, revoked: set<string>, c: Claims) {
    c.tokenId.Some? && c.tokenId.value != "" && Revoked(p, revoked, c.tokenId.value)
  }

  predicate Allows<T(==)>(limit: set<T>, value: Option<T>) {
    value.None? || limit == {} || value.value in limit
  }

  function Supplied(actor: Actor): string {
    if actor.token.Some? then Trim(actor.token.value) else ""
  }

  /** `tryAuthorizeIssuedToken` */
  predicate TryIssued(p: Policy, revoked: set<string>, actor: Actor, now: int, scope: Scope,
                      registered: Option<Entry>) {
    var token := Supplied(actor);
    && p.issues && token != ""
    && !(p.requireMatch && registered.None?)
    && Verified(p, token).Some?
    && var c := Verified(p, token).value;
       && ClaimsInForce(p, c, now)
       && !ClaimsRevoked(p, revoked, c)
       && c.actorId == actor.actorId && c.role == actor.role
       && (c.source.Some? && c.source.value != "" ==> c.source.value == actor.source)
       && Allows(c.transports, Some(actor.transport))
       && Allows(c.commands, scope.command)
       && Allows(c.actions, scope.action)
  }

  // ----- The decision -----

  function Shape(actor: Actor, scope: Scope): Option<Why> {
    if Trim(actor.actorId) == "" then Some(NoActorId)
    else if Trim(actor.source) == "" then Some(NoSource)
    else if scope.command.Some? && actor.role !in CommandRoles(scope.command.value) then Some(CommandRole)
    else if scope.action.Some? && actor.role !in AdminRoles(scope.action.value) then Some(AdminRole)
    else None
  }

  function EntryLimit(e: Entry, actor: Actor, now: int, scope: Scope): Option<Why> {
    if !e.enabled then Some(Disabled)
    else if !Within(now, e.window) then Some(OutsideWindow)
    else if e.role != actor.role then Some(WrongRole)
    else if !Allows(e.transports, Some(actor.transport)) then Some(TransportLimit)
    else if !Allows(e.commands, scope.command) then Some(CommandLimit)
    else if !Allows(e.actions, scope.action) then Some(ActionLimit)
    else if e.source.Some? && e.source.value != "" && e.source.value != actor.source then Some(SourceLimit)
    else None
  }

  predicate Active(tokens: seq<Credential>, token: string, now: int) {
    exists i :: 0 <= i < |tokens| && tokens[i].token == token && Within(now, tokens[i].window)
  }

  predicate Known(tokens: seq<Credential>, token: string) {
    exists i :: 0 <= i < |tokens| && tokens[i].token == token
  }

  /** `authorizeOperation` */
  function Authorize(p: Policy, revoked: set<string>, actor: Actor, now: int, scope: Scope): Verdict {
    var shape := Shape(actor, scope);
    var registered := Lookup(p.registry, actor.actorId);
    if shape.Some? then Denied(shape.value)
    else if registered.None? then
      if TryIssued(p, revoked, actor, now, scope, None) then ByIssued
      else if p.enforced && !(p.allowAnonymousInternal && actor.transport.Internal?) then Denied(NotRegistered)
      else WithoutToken
    else
      var e := registered.value;
      var limit := EntryLimit(e, actor, now, scope);
      if limit.Some? then Denied(limit.value)
      else if TryIssued(p, revoked, actor, now, scope, registered) then ByIssued
      else if e.tokens != [] then
        var token := Supplied(actor);
        if token == "" then Denied(NoToken)
        else if Active(e.tokens, token, now) then ByStatic
        else if Known(e.tokens, token) then Denied(InactiveToken)
        else Denied(WrongToken)
      else if p.enforced && !actor.transport.Internal? then Denied(NoTokenConfigured)
      else WithoutToken
  }

  // ----- The inspection -----

  datatype Kind = Issued | Static | UnknownToken

  datatype Inspection = Inspection(kind: Kind, valid: bool)

  datatype Match = Match(entry: Entry, credential: Credential)

  function CredentialOf(tokens: seq<Credential>, token: string): (c: Option<Credential>)
    ensures c.Some? ==> exists i :: 0 <= i < |tokens| && tokens[i] == c.value && c.value.token == token
    ensures c.None? ==> !Known(tokens, token)
  {
    if tokens == [] then None
    else if tokens[0].token == token then Some(tokens[0])
    else
      assert forall i :: 1 <= i < |tokens| ==> tokens[i] == tokens[1..][i - 1];
      CredentialOf(tokens[1..], token)
  }

  /** `findStaticCredentialMatch`: the first credential with the token, in the order of the registry. */
  function StaticMatch(registry: seq<Registered>, token: string): Option<Match> {
    if registry == [] then None
    else
      var found := CredentialOf(registry[0].entry.tokens, token);
      if found.Some? then Some(Match(registry[0].entry, found.value)) else StaticMatch(registry[1..], token)
  }

  predicate RegistryMatches(p: Policy, c: Claims, registered: Option<Entry>) {
    p.requireMatch ==>
      && registered.Some? && registered.value.role == c.role
      && (c.source.None? || c.source.value == "" || registered.value.source.None? ||
           registered.value.source.value == "" ||
          registered.value.source == c.source)
  }

  /** `inspectToken` */
  function Inspect(p: Policy, revoked: set<string>, token: string, now: int, transport: Option<Transport>,
                   scope: Scope): Inspection {
    var trimmed := Trim(token);
    var static_ := StaticMatch(p.registry, trimmed);
    if trimmed == "" then Inspection(UnknownToken, false)
    else if static_.Some? then
      var e := static_.value.entry;
      Inspection(Static,
        && e.enabled && Within(now, e.window) && Within(now, static_.value.credential.window)
        && Allows(e.transports, transport) && Allows(e.commands, scope.command) && Allows(e.actions, scope.action))
    else if Verified(p, trimmed).Some? then
      var c := Verified(p, trimmed).value;
      var registered := Lookup(p.registry, c.actorId);
      Inspection(Issued,
        && ClaimsInForce(p, c, now) && !ClaimsRevoked(p, revoked, c) && RegistryMatches(p, c, registered)
        && Allows(c.transports, transport) && Allows(c.commands, scope.command) && Allows(c.actions, scope.action)
        && (registered.Some? ==> registered.value.enabled && Within(now, registered.value.window)))
    else Inspection(UnknownToken, false)
  }

  // ----- Agreement -----

  /** The k-th credential of the i-th entry has this token. */
  predicate TokenAt(registry: seq<Registered>, i: nat, k: nat, token: string) {
    i < |registry| && k < |registry[i].entry.tokens| && registry[i].entry.tokens[k].token == token
  }

  /** No token string is configured twice. */
  ghost predicate DistinctTokens(registry: seq<Registered>) {
    forall i, j, k, l, token :: TokenAt(registry, i, k, token) && TokenAt(registry, j, l, token) ==> i == j && k == l
  }

  /** What only the decision looks at: the actor's own claims to a role, an identity and a source,
      and, for an issued token, the limits of the registry entry. */
  predicate Belongs(p: Policy, actor: Actor, now: int, scope: Scope) {
    var token := Supplied(actor);
    var registered := Lookup(p.registry, actor.actorId);
    && Shape(actor, scope).None?
    && (registered.Some? ==> EntryLimit(registered.value, actor, now, scope).None?)
    && if StaticMatch(p.registry, token).Some? then registered.Some? && Known(registered.value.tokens, token)
       else
         && Verified(p, token).Some?
         && var c := Verified(p, token).value;
            && c.actorId == actor.actorId && c.role == actor.role
            && (c.source.Some? && c.source.value != "" ==> c.source.value == actor.source)
  }

  ghost predicate MatchAt(registry: seq<Registered>, i: nat, k: nat, token: string, m: Match) {
    TokenAt(registry, i, k, token) && m == Match(registry[i].entry, registry[i].entry.tokens[k])
  }

  lemma {:induction false} StaticMatchAt(registry: seq<Registered>, token: string) returns (i: nat, k: nat)
    requires StaticMatch(registry, token).Some?
    ensures MatchAt(registry, i, k, token, StaticMatch(registry, token).value)
  {
    var found := CredentialOf(registry[0].entry.tokens, token);
    if found.Some? {
      i := 0;
      k :| 0 <= k < |registry[0].entry.tokens| && registry[0].entry.tokens[k] == found.value;
    } else {
      i, k := StaticMatchAt(registry[1..], token);
      i := i + 1;
    }
  }

  lemma {:induction false} TokenIsMatched(registry: seq<Registered>, i: nat, k: nat, token: string)
    requires TokenAt(registry, i, k, token)
    ensures StaticMatch(registry, token).Some?
  {
    if i == 0 {
      assert Known(registry[0].entry.tokens, token);
    } else {
      TokenIsMatched(registry[1..], i - 1, k, token);
    }
  }

  lemma KnownAt(registry: seq<Registered>, actorId: string, token: string) returns (i: nat, k: nat)
    requires Lookup(registry, actorId).Some? && Known(Lookup(registry, actorId).value.tokens, token)
    ensures TokenAt(registry, i, k, token) && registry[i].entry == Lookup(registry, actorId).value
  {
    var e := Lookup(registry, actorId).value;
    i :| 0 <= i < |registry| && registry[i] == Registered(actorId, e);
    k :| 0 <= k < |e.tokens| && e.tokens[k].token == token;
  }

  /** With distinct tokens, a configured token leads to the one entry and credential that hold it. */
  lemma MatchIsTheOne(registry: seq<Registered>, actorId: string, token: string, now: int)
    requires DistinctTokens(registry)
    requires Lookup(registry, actorId).Some? && Known(Lookup(registry, actorId).value.tokens, token)
    ensures StaticMatch(registry, token).Some?
    ensures StaticMatch(registry, token).value.entry == Lookup(registry, actorId).value
    ensures Within(now, StaticMatch(registry, token).value.credential.window) <==>
              Active(Lookup(registry, actorId).value.tokens, token, now)
  {
    hide Lookup, StaticMatch, Within;
    var tokens := Lookup(registry, actorId).value.tokens;
    var i, k := KnownAt(registry, actorId, token);
    TokenIsMatched(registry, i, k, token);
    var j, l := StaticMatchAt(registry, token);
    if Active(tokens, token, now) {
      var n :| 0 <= n < |tokens| && tokens[n].token == token && Within(now, tokens[n].window);
      assert TokenAt(registry, i, n, token);
    }
  }

  lemma ActiveIsKnown(tokens: seq<Credential>, token: string, now: int)
    ensures Active(tokens, token, now) ==> Known(tokens, token)
    ensures Known(tokens, token) ==> tokens != []
  {
  }

  /** The agreement for one operation. */
  ghost predicate Agree(p: Policy, revoked: set<string>, actor: Actor, now: int, scope: Scope) {
    var verdict := Authorize(p, revoked, actor, now, scope);
    var inspection := Inspect(p, revoked, Supplied(actor), now, Some(actor.transport), scope);
    && (verdict.ByIssued? || verdict.ByStatic? <==> inspection.valid && Belongs(p, actor, now, scope))
    && (verdict.ByIssued? ==> inspection.kind.Issued?)
    && (verdict.ByStatic? ==> inspection.kind.Static?)
  }

  /** The token also passes as an issued one: the actor's claims and its registry entry allow the operation, and the
      token verifies, is in force, is not revoked, and was issued to this actor for it. */
  predicate PassesAsIssued(p: Policy, revoked: set<string>, actor: Actor, now: int, scope: Scope) {
    var registered := Lookup(p.registry, actor.actorId);
    && Shape(actor, scope).None?
    && (registered.Some? ==> EntryLimit(registered.value, actor, now, scope).None?)
    && TryIssued(p, revoked, actor, now, scope, registered)
  }

  lemma AgreeOnStatic(p: Policy, revoked: set<string>, actor: Actor, now: int, scope: Scope)
    requires DistinctTokens(p.registry) && Supplied(actor) != "" && StaticMatch(p.registry, Supplied(actor)).Some?
    ensures Agree(p, revoked, actor, now, scope) <==> !PassesAsIssued(p, revoked, actor, now, scope)
  {
    hide Lookup, StaticMatch, TryIssued, Shape, Within, Allows, Known, Active, DistinctTokens, Supplied, Trim;
    var token := Supplied(actor);
    TrimOnce(actor);
    var registered := Lookup(p.registry, actor.actorId);
    if registered.Some? {
      ActiveIsKnown(registered.value.tokens, token, now);
      if Known(registered.value.tokens, token) {
        MatchIsTheOne(p.registry, actor.actorId, token, now);
      }
    }
  }

  lemma AgreeOnIssued(p: Policy, revoked: set<string>, actor: Actor, now: int, scope: Scope)
    requires DistinctTokens(p.registry)
    ensures Supplied(actor) != "" && StaticMatch(p.registry, Supplied(actor)).None? ==>
              Agree(p, revoked, actor, now, scope)
  {
    hide Lookup, StaticMatch, Verified, Shape, Within, Allows, ClaimsInForce, ClaimsRevoked, Known, Active,
         DistinctTokens, Supplied, Trim;
    var token := Supplied(actor);
    TrimOnce(actor);
    var registered := Lookup(p.registry, actor.actorId);
    if registered.Some? {
      ActiveIsKnown(registered.value.tokens, token, now);
      if Known(registered.value.tokens, token) {
        MatchIsTheOne(p.registry, actor.actorId, token, now);
      }
    }
  }

  lemma AgreeOnNothing(p: Policy, revoked: set<string>, actor: Actor, now: int, scope: Scope)
    requires Supplied(actor) == ""
    ensures Agree(p, revoked, actor, now, scope)
  {
    hide Lookup, StaticMatch, Verified, Shape, Supplied, Trim, Belongs, EntryLimit;
    TrimOnce(actor);
  }

  /** With distinct tokens, an operation is accepted on the strength of a token exactly when inspecting that token,
      for the same instant, transport and scope, finds it valid and what only the decision looks at holds too: for
      every supplied token but exactly those that are configured and also pass as issued. */
  lemma DecisionIff(p: Policy, revoked: set<string>, actor: Actor, now: int, scope: Scope)
    requires DistinctTokens(p.registry)
    ensures Agree(p, revoked, actor, now, scope) <==>
            !(StaticMatch(p.registry, Supplied(actor)).Some? && PassesAsIssued(p, revoked, actor, now, scope))
  {
    hide *;
    if Supplied(actor) == "" {
      AgreeOnNothing(p, revoked, actor, now, scope);
      NothingIsNotIssued(p, revoked, actor, now, scope);
    } else if StaticMatch(p.registry, Supplied(actor)).Some? {
      AgreeOnStatic(p, revoked, actor, now, scope);
    } else {
      AgreeOnIssued(p, revoked, actor, now, scope);
    }
  }

  lemma NothingIsNotIssued(p: Policy, revoked: set<string>, actor: Actor, now: int, scope: Scope)
    requires Supplied(actor) == ""
    ensures !PassesAsIssued(p, revoked, actor, now, scope)
  {
    hide Lookup, Shape, EntryLimit, Verified;
  }

  lemma TrimOnce(actor: Actor)
    ensures Trim(Supplied(actor)) == Supplied(actor)
  {
    if actor.token.Some? {
      TrimIdempotent(actor.token.value);
    } else {
      TrimOfTrimmed("");
    }
  }

  // ----- Where the two disagree -----

  /** A static token that has expired but verifies as an issued one is accepted, although its inspection,
      which looks at configured tokens first, finds it invalid. */
  lemma StaticTokenHidesIssued(revoked: set<string>, never: string -> bool)
    ensures var claims := Claims(None, "a", Writer, None, {}, {}, {}, None, None);
            var tokens := [Credential("t", Window(None, Some(5)))];
            var entry := Entry(Writer, tokens, None, true, {}, {}, {}, Window(None, None));
            var p := Policy(true, false, [Registered("a", entry)], true, _ => Some(claims), _ => None, true, never);
            var actor := Actor("a", Writer, Http, "s", Some("t"));
            var scope := Scope(Some(DraftNote), None);
            && DistinctTokens(p.registry)
            && Authorize(p, revoked, actor, 9, scope).ByIssued?
            && Inspect(p, revoked, "t", 9, Some(Http), scope) == Inspection(Static, false)
  {
    TrimShort();
  }

  /** A token that is configured twice is accepted by its second, current credential, although inspection stops
      at the first, expired one. */
  lemma RepeatedTokenDisagrees(revoked: set<string>, never: string -> bool)
    ensures var tokens := [Credential("t", Window(None, Some(5))), Credential("t", Window(None, None))];
            var entry := Entry(Writer, tokens, None, true, {}, {}, {}, Window(None, None));
            var p := Policy(true, false, [Registered("a", entry)], false, _ => None, _ => None, true, never);
            var actor := Actor("a", Writer, Http, "s", Some("t"));
            var scope := Scope(Some(DraftNote), None);
            && !PassesAsIssued(p, revoked, actor, 9, scope)
            && Authorize(p, revoked, actor, 9, scope).ByStatic?
            && Inspect(p, revoked, "t", 9, Some(Http), scope) == Inspection(Static, false)
  {
    TrimShort();
    var tokens := [Credential("t", Window(None, Some(5))), Credential("t", Window(None, None))];
    assert tokens[1].token == "t" && Within(9, tokens[1].window);
  }

  lemma TrimShort()
    ensures Trim("a") == "a" && Trim("s") == "s" && Trim("t") == "t"
  {
    hide *;
    assert "a" == ['a'] && "s" == ['s'] && "t" == ['t'];
    TrimLetter('a');
    TrimLetter('s');
    TrimLetter('t');
  }

  lemma TrimLetter(c: char)
    requires 'a' <= c <= 'z'
    ensures Trim([c]) == [c]
  {
    TrimOfTrimmed([c]);
  }

  // ----- What a policy guarantees -----

  /** While authorisation is enforced, nobody outside the process is accepted without a token. */
  lemma EnforcedNeedsToken(p: Policy, revoked: set<string>, actor: Actor, now: int, scope: Scope)
    requires p.enforced && !actor.transport.Internal?
    ensures !Authorize(p, revoked, actor, now, scope).WithoutToken?
    ensures actor.token.None? ==> Authorize(p, revoked, actor, now, scope).Denied?
  {
    hide Lookup, Shape, EntryLimit, Verified, ClaimsInForce, ClaimsRevoked, Allows;
  }

  /** Revoking more tokens lets nothing through that was refused before, and finds no token valid that was not. */
  lemma RevocationIsMonotone(p: Policy, before: set<string>, after: set<string>, actor: Actor, now: int, scope: Scope)
    requires before <= after
    ensures Authorize(p, after, actor, now, scope).ByIssued? ==> Authorize(p, before, actor, now, scope).ByIssued?
    ensures Authorize(p, before, actor, now, scope).Denied? ==> Authorize(p, after, actor, now, scope).Denied?
    ensures Inspect(p, after, Supplied(actor), now, Some(actor.transport), scope).valid ==>
              Inspect(p, before, Supplied(actor), now, Some(actor.transport), scope).valid
  {
    hide Lookup, Shape, EntryLimit, Verified, ClaimsInForce, Allows, Active, Known, Supplied, StaticMatch, Trim, Within;
  }

  /** A revoked token is neither accepted as issued nor found valid as such. While nothing is enforced it does not
      keep an unregistered actor out: the actor passes as one without a token. */
  lemma RevokedIsRefused(p: Policy, revoked: set<string>, actor: Actor, now: int, scope: Scope, id: string)
    requires Verified(p, Supplied(actor)).Some?
    requires Verified(p, Supplied(actor)).value.tokenId == Some(id) && Trim(id) in revoked && id != ""
    ensures !Authorize(p, revoked, actor, now, scope).ByIssued?
    ensures var inspection := Inspect(p, revoked, Supplied(actor), now, Some(actor.transport), scope);
            inspection.kind.Issued? ==> !inspection.valid
    ensures !p.enforced && Lookup(p.registry, actor.actorId).None? && Shape(actor, scope).None? ==>
              Authorize(p, revoked, actor, now, scope).WithoutToken?
  {
    hide Lookup, Shape, EntryLimit, Verified, ClaimsInForce, Allows, Active, Known, Supplied, StaticMatch, Trim, Within;
    TrimOnce(actor);
  }

  // ----- Configured credentials -----

  /** A credential as configured: a bare token, or a token with a validity window. */
  datatype RawCredential =
    | Bare(token: string)
    | Dated(token: string, validFrom: Option<string>, validUntil: Option<string>)

  /** The credentials that the first n configured ones come to; blank tokens are dropped, and a date that cannot
      be read raises. */
  function Normalized(parse: string -> Option<int>, raw: seq<RawCredential>, n: nat): Option<seq<Credential>>
    requires n <= |raw|
  {
    if n == 0 then Some([])
    else
      var before := Normalized(parse, raw, n - 1);
      var token := Trim(raw[n - 1].token);
      if before.None? || token == "" then before
      else
        match raw[n - 1]
        case Bare(_) => Some(before.value + [Credential(token, Window(None, None))])
        case Dated(_, validFrom, validUntil) =>
          if Instant(parse, validFrom).None? || Instant(parse, validUntil).None? then None
          else Some(before.value +
              [Credential(token, Window(Instant(parse, validFrom).value, Instant(parse, validUntil).value))])
  }

  method NormalizeTokenCredentials(parse: string -> Option<int>, raw: seq<RawCredential>)
    returns (credentials: Option<seq<Credential>>)
    ensures credentials == Normalized(parse, raw, |raw|)
  {
    hide Trim, Instant;
    var out: seq<Credential> := [];
    for i := 0 to |raw|
      invariant Normalized(parse, raw, i) == Some(out)
    {
      var token := Trim(raw[i].token);
      if token == "" {
        continue;
      }
      match raw[i] {
        case Bare(_) =>
          out := out + [Credential(token, Window(None, None))];
        case Dated(_, validFrom, validUntil) =>
          var from, until := Instant(parse, validFrom), Instant(parse, validUntil);
          if from.None? || until.None? {
            NormalizedStaysFailed(parse, raw, i + 1, |raw|);
            return None;
          }
          out := out + [Credential(token, Window(from.value, until.value))];
      }
    }
    credentials := Some(out);
  }

  lemma {:induction false} NormalizedStaysFailed(parse: string -> Option<int>, raw: seq<RawCredential>, n: nat, m: nat)
    requires n <= m <= |raw|
    ensures Normalized(parse, raw, n).None? ==> Normalized(parse, raw, m).None?
  {
    hide Trim, Instant;
    if n < m {
      NormalizedStaysFailed(parse, raw, n, m - 1);
    }
  }

  /** A normalised credential can be met by a supplied token, and each comes from a configured one with that token. */
  lemma {:induction false} NormalizedAreConfigured(parse: string -> Option<int>, raw: seq<RawCredential>, n: nat,
                                        k: nat)
    requires n <= |raw| && Normalized(parse, raw, n).Some? && k < |Normalized(parse, raw, n).value|
    ensures var token := Normalized(parse, raw, n).value[k].token;
            token != "" && Trim(token) == token && exists i :: 0 <= i < n && Trim(raw[i].token) == token
  {
    hide Trim, Instant;
    var before := Normalized(parse, raw, n - 1).value;
    if k < |before| {
      NormalizedAreConfigured(parse, raw, n - 1, k);
    } else {
      TrimIdempotent(raw[n - 1].token);
    }
  }

  class ActorAuthorizationPolicy {
    const policy: Policy
    var revokedIssuedTokenIds: set<string>

    constructor (policy: Policy, revokedIds: seq<string>)
      ensures this.policy == policy
      ensures revokedIssuedTokenIds == set i | 0 <= i < |revokedIds| && Trim(revokedIds[i]) != "" :: Trim(revokedIds[i])
    {
      this.policy := policy;
      revokedIssuedTokenIds := set i | 0 <= i < |revokedIds| && Trim(revokedIds[i]) != "" :: Trim(revokedIds[i]);
    }

    /** None when the id is blank, which raises. */
    method RevokeIssuedTokenId(tokenId: string) returns (isNew: Option<bool>)
      modifies this
      ensures isNew == if Trim(tokenId) == "" then None else Some(Trim(tokenId) !in old(revokedIssuedTokenIds))
      ensures revokedIssuedTokenIds == if Trim(tokenId) == "" then old(revokedIssuedTokenIds)
                                       else old(revokedIssuedTokenIds) + {Trim(tokenId)}
    {
      var normalized := Trim(tokenId);
      if normalized == "" {
        return None;
      }
      var alreadyRevoked := normalized in revokedIssuedTokenIds;
      revokedIssuedTokenIds := revokedIssuedTokenIds + {normalized};
      isNew := Some(!alreadyRevoked);
    }
  }
}
