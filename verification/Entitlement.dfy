/** Who is let through, said once more by role and without the order in which the policy looks. */
module Entitlement {
  import opened Authorization
  import opened Text

  /** What a role may run. */
  predicate MayRun(role: Role, c: Command) {
    match role
    case Retrieval =>
      || c.SearchContext? || c.SearchSessionArchives? || c.AssembleAgentContext? || c.GetContextPacket?
      || c.FetchDecisionSummary?
    case Writer => c.DraftNote?
    case Orchestrator => !c.ExecuteCodingTask? && !c.ShowToolOutput? && !c.CreateSessionArchive?
    case _ => true
  }

  predicate MayAdminister(role: Role, a: AdminAction) {
    role.Operator? || role.System? || (role.Orchestrator? && a.ViewFreshnessStatus?)
  }

  /** An actor who says who and where from, in a role that may do what is asked. */
  predicate Entitled(actor: Actor, scope: Scope) {
    && Trim(actor.actorId) != "" && Trim(actor.source) != ""
    && (scope.command.Some? ==> MayRun(actor.role, scope.command.value))
    && (scope.action.Some? ==> MayAdminister(actor.role, scope.action.value))
  }

  /** The bounds of a window belong to it. */
  predicate InTime(now: int, from: Option<int>, until: Option<int>) {
    (from.None? || from.value <= now) && (until.None? || now <= until.value)
  }

  /** No set of transports, commands or actions that is not empty leaves out what is asked for. */
  predicate InScope(transports: set<Transport>, commands: set<Command>, actions: set<AdminAction>, actor: Actor,
                    scope: Scope) {
    && (transports == {} || actor.transport in transports)
    && (commands == {} || scope.command.None? || scope.command.value in commands)
    && (actions == {} || scope.action.None? || scope.action.value in actions)
  }

  predicate FromSource(source: Option<string>, actor: Actor) {
    source == Some(actor.source) || source == Some("") || source.None?
  }

  predicate WithinEntry(e: Entry, actor: Actor, now: int, scope: Scope) {
    && e.enabled && e.role == actor.role && InTime(now, e.window.from, e.window.until)
    && InScope(e.transports, e.commands, e.actions, actor, scope) && FromSource(e.source, actor)
  }

  /** The supplied token was issued to this actor for this, has readable dates that hold, and is not revoked. */
  predicate WithIssuedToken(p: Policy, revoked: set<string>, actor: Actor, now: int, scope: Scope) {
    && actor.token.Some? && Trim(actor.token.value) != "" && p.issues
    && (p.requireMatch ==> Lookup(p.registry, actor.actorId).Some?)
    && var claims := p.verify(Trim(actor.token.value));
       && claims.Some?
       && var c := claims.value;
          && c.actorId == actor.actorId && c.role == actor.role && FromSource(c.source, actor)
          && Dated(p, c.validFrom) && Dated(p, c.validUntil)
          && InTime(now, DateOf(p, c.validFrom), DateOf(p, c.validUntil))
          && InScope(c.transports, c.commands, c.actions, actor, scope)
          && (c.tokenId.Some? && c.tokenId.value != "" ==>
               Trim(c.tokenId.value) !in revoked && !p.revokedElsewhere(Trim(c.tokenId.value)))
  }

  /** There is no date, or it can be read. */
  predicate Dated(p: Policy, date: Option<string>) {
    date.Some? && Trim(date.value) != "" ==> p.parse(date.value).Some?
  }

  function DateOf(p: Policy, date: Option<string>): Option<int> {
    if date.Some? && Trim(date.value) != "" then p.parse(date.value) else None
  }

  predicate Serves(c: Credential, token: string, now: int) {
    c.token == token && InTime(now, c.window.from, c.window.until)
  }

  predicate WithConfiguredToken(e: Entry, actor: Actor, now: int) {
    && actor.token.Some? && Trim(actor.token.value) != ""
    && exists i :: 0 <= i < |e.tokens| && Serves(e.tokens[i], Trim(actor.token.value), now)
  }

  /** An operation is accepted exactly when the actor is entitled to it, the limits of the registry entry hold, and the
      actor shows an issued token, or a configured one where some are configured; where none is, registered actors must
      come from inside while authorisation is enforced, and others must come from inside and be welcome there. */
  lemma AcceptedIff(p: Policy, revoked: set<string>, actor: Actor, now: int, scope: Scope)
    ensures var registered := Lookup(p.registry, actor.actorId);
            !Authorize(p, revoked, actor, now, scope).Denied? <==>
              && Entitled(actor, scope)
              && (registered.Some? ==> WithinEntry(registered.value, actor, now, scope))
              && (|| WithIssuedToken(p, revoked, actor, now, scope)
                  || (registered.Some? && registered.value.tokens != [] &&
                       WithConfiguredToken(registered.value, actor, now))
                  || (registered.Some? && registered.value.tokens == [] && (!p.enforced || actor.transport.Internal?))
                  || (registered.None? && (!p.enforced || (p.allowAnonymousInternal && actor.transport.Internal?))))
  {
    hide Lookup, Trim;
    ShapeIff(actor, scope);
    IssuedIff(p, revoked, actor, now, scope);
    var registered := Lookup(p.registry, actor.actorId);
    if registered.Some? {
      LimitIff(registered.value, actor, now, scope);
      hide Shape, TryIssued, EntryLimit, WithIssuedToken, Entitled, WithinEntry, InScope, FromSource;
      ActiveIff(registered.value.tokens, Supplied(actor), now);
    }
  }

  lemma ShapeIff(actor: Actor, scope: Scope)
    ensures Shape(actor, scope).None? <==> Entitled(actor, scope)
  {
    hide Trim;
  }

  lemma LimitIff(e: Entry, actor: Actor, now: int, scope: Scope)
    ensures EntryLimit(e, actor, now, scope).None? <==> WithinEntry(e, actor, now, scope)
  {
  }

  lemma ActiveIff(tokens: seq<Credential>, token: string, now: int)
    ensures Active(tokens, token, now) <==> exists i :: 0 <= i < |tokens| && Serves(tokens[i], token, now)
  {
    if i :| 0 <= i < |tokens| && Serves(tokens[i], token, now) {
      assert Within(now, tokens[i].window);
    }
    if Active(tokens, token, now) {
      var i :| 0 <= i < |tokens| && tokens[i].token == token && Within(now, tokens[i].window);
      assert Serves(tokens[i], token, now);
    }
  }

  lemma IssuedIff(p: Policy, revoked: set<string>, actor: Actor, now: int, scope: Scope)
    ensures TryIssued(p, revoked, actor, now, scope, Lookup(p.registry, actor.actorId)) <==>
            WithIssuedToken(p, revoked, actor, now, scope)
  {
    hide Lookup, Trim;
  }

  // ----- The inspection -----

  /** Like InScope, for a transport that need not be given. */
  predicate WithinLimits(transports: set<Transport>, commands: set<Command>, actions: set<AdminAction>,
                         transport: Option<Transport>, scope: Scope) {
    && (transports == {} || transport.None? || transport.value in transports)
    && (commands == {} || scope.command.None? || scope.command.value in commands)
    && (actions == {} || scope.action.None? || scope.action.value in actions)
  }

  /** The claims hold now, are not revoked, and their actor is registered as they say, where that is asked for. */
  predicate ClaimsHold(p: Policy, revoked: set<string>, c: Claims, now: int) {
    var registered := Lookup(p.registry, c.actorId);
    && InTime(now, DateOf(p, c.validFrom), DateOf(p, c.validUntil))
    && (c.tokenId.Some? && c.tokenId.value != "" ==>
         Trim(c.tokenId.value) !in revoked && !p.revokedElsewhere(Trim(c.tokenId.value)))
    && (p.requireMatch ==>
         registered.Some? && registered.value.role == c.role && SameSource(c.source, registered.value.source))
    && (registered.Some? ==>
         registered.value.enabled && InTime(now, registered.value.window.from, registered.value.window.until))
  }

  /** Two sources that are both given agree. */
  predicate SameSource(a: Option<string>, b: Option<string>) {
    a.None? || b.None? || a.value == "" || b.value == "" || a.value == b.value
  }

  predicate IsIssued(p: Policy, token: string) {
    && p.issues && p.verify(token).Some?
    && Dated(p, p.verify(token).value.validFrom) && Dated(p, p.verify(token).value.validUntil)
  }

  /** What inspecting a token comes to: blank ones are unknown, configured ones are judged by the first entry and
      credential that hold them, and only others by what they verify to. */
  lemma InspectionIff(p: Policy, revoked: set<string>, token: string, now: int, transport: Option<Transport>,
                      scope: Scope)
    ensures var i, t := Inspect(p, revoked, token, now, transport, scope), Trim(token);
            var configured := StaticMatch(p.registry, t);
            && (i.kind.Static? <==> t != "" && configured.Some?)
            && (i.kind.Issued? <==> t != "" && configured.None? && IsIssued(p, t))
            && (i.kind.UnknownToken? ==> !i.valid)
            && (i.kind.Static? ==>
                 var e, w := configured.value.entry, configured.value.credential.window;
                 (i.valid <==>
                   && e.enabled && InTime(now, e.window.from, e.window.until) && InTime(now, w.from, w.until)
                   && WithinLimits(e.transports, e.commands, e.actions, transport, scope)))
            && (i.kind.Issued? ==>
                 var c := p.verify(t).value;
                 (i.valid <==>
                   ClaimsHold(p, revoked, c, now) &&
                       WithinLimits(c.transports, c.commands, c.actions, transport, scope)))
  {
    hide Trim, StaticMatch, Lookup;
  }

  /** An actor who shows no usable token is told whether it is configured. */
  lemma TokenReason(p: Policy, revoked: set<string>, actor: Actor, now: int, scope: Scope)
    ensures var verdict := Authorize(p, revoked, actor, now, scope);
            && (verdict == Denied(InactiveToken) ==> ShownIsConfigured(p, actor))
            && (verdict == Denied(WrongToken) ==> actor.token.Some? && !ShownIsConfigured(p, actor))
            && (verdict == Denied(NoToken) ==> actor.token.None? || Trim(actor.token.value) == "")
  {
    hide Lookup, Trim, TryIssued;
  }

  /** The token shown is one of those configured for the actor. */
  ghost predicate ShownIsConfigured(p: Policy, actor: Actor) {
    && Lookup(p.registry, actor.actorId).Some? && actor.token.Some?
    && var tokens := Lookup(p.registry, actor.actorId).value.tokens;
       exists i :: 0 <= i < |tokens| && tokens[i].token == Trim(actor.token.value)
  }

  // ----- Configured credentials -----

  predicate Usable(raw: RawCredential) {
    Trim(raw.token) != ""
  }

  predicate DatesReadable(parse: string -> Option<int>, raw: RawCredential) {
    raw.Dated? ==> CanParse(parse, raw.validFrom) && CanParse(parse, raw.validUntil)
  }

  predicate CanParse(parse: string -> Option<int>, date: Option<string>) {
    date.Some? && Trim(date.value) != "" ==> parse(date.value).Some?
  }

  function Parsed(parse: string -> Option<int>, date: Option<string>): Option<int> {
    if date.Some? && Trim(date.value) != "" then parse(date.value) else None
  }

  /** A configured credential as it is kept. */
  predicate KeptAs(parse: string -> Option<int>, raw: RawCredential, c: Credential) {
    && c.token == Trim(raw.token)
    && match raw
       case Bare(_) => c.window.from.None? && c.window.until.None?
       case Dated(_, from, until) => c.window.from == Parsed(parse, from) && c.window.until == Parsed(parse, until)
  }

  /** Normalising fails exactly when a token that is not blank has a date that cannot be read; otherwise it keeps
      exactly the tokens that are not blank, in order, each with its window. */
  lemma {:induction false} NormalizedKeeps(parse: string -> Option<int>, raw: seq<RawCredential>, n: nat)
    returns (at: seq<nat>)
    requires n <= |raw|
    ensures Normalized(parse, raw, n).Some? <==> forall i :: 0 <= i < n && Usable(raw[i]) ==>
              DatesReadable(parse, raw[i])
    ensures Normalized(parse, raw, n).Some? ==>
              var out := Normalized(parse, raw, n).value;
              && |at| == |out|
              && (forall k :: 0 <= k < |at| ==> at[k] < n && KeptAs(parse, raw[at[k]], out[k]))
              && (forall k, l :: 0 <= k < l < |at| ==> at[k] < at[l])
              && (forall i :: 0 <= i < n ==> (i in at <==> Usable(raw[i])))
  {
    hide Trim, Usable, KeptAs, DatesReadable;
    at := [];
    if n > 0 {
      at := NormalizedKeeps(parse, raw, n - 1);
      OneIsKept(parse, raw, n);
      if Usable(raw[n - 1]) && Normalized(parse, raw, n).Some? {
        at := at + [n - 1];
      }
    }
  }

  lemma OneIsKept(parse: string -> Option<int>, raw: seq<RawCredential>, n: nat)
    requires 0 < n <= |raw|
    ensures var before, after := Normalized(parse, raw, n - 1), Normalized(parse, raw, n);
            if before.None? || !Usable(raw[n - 1]) then after == before
            else if !DatesReadable(parse, raw[n - 1]) then after.None?
            else
              && after.Some? && |after.value| == |before.value| + 1 && after.value[..|before.value|] == before.value
              && KeptAs(parse, raw[n - 1], after.value[|before.value|])
  {
    hide Trim;
  }
}
