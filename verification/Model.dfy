/** The domain model: the send-invite request with its structured and deprecated scalar fields, the
    persisted record, the e-mail payload and the public view. Times are nanoseconds. */
module Model {
  import opened Base
  import KeySpace

  // ---------------------------------------------------------------- entities

  datatype Recipient = Recipient(name: string, email: Bytes, username: string, avatar: string)

  datatype Inviter = Inviter(name: string, username: string, email: string, avatar: string)

  datatype InviteResource = InviteResource(uid: string, name: string, kind: string, parentName: string)

  datatype Status = Pending | Accepted

  datatype SendInviteRequest = SendInviteRequest(
    recipient: Option<Recipient>,
    inviter: Option<Inviter>,
    resource: Option<InviteResource>,
    recipientEmail: Bytes,
    recipientName: string,
    inviterName: string,
    resourceUID: string,
    resourceName: string,
    resourceType: string,
    role: string,
    returnURL: string,
    orgName: string,
    expirationDays: int,
    customClaims: map<string, string>,
    recipientHasAccount: bool)
  {
    function ResolvedRecipientEmail(): Bytes {
      if recipient.Some? && recipient.value.email != "" then recipient.value.email else recipientEmail
    }

    function ResolvedRecipientName(): string {
      if recipient.Some? && recipient.value.name != "" then recipient.value.name else recipientName
    }

    function ResolvedResourceUID(): string {
      if resource.Some? && resource.value.uid != "" then resource.value.uid else resourceUID
    }

    function ResolvedResourceName(): string {
      if resource.Some? && resource.value.name != "" then resource.value.name else resourceName
    }

    // No default is applied here, although the README documents "resource".
    function ResolvedResourceType(): string {
      if resource.Some? && resource.value.kind != "" then resource.value.kind else resourceType
    }

    function ResolvedInviterName(): string {
      if inviter.Some? && inviter.value.name != "" then inviter.value.name else inviterName
    }

    function ResolvedParentResourceName(): string {
      if resource.Some? then resource.value.parentName else ""
    }
  }

  /** The persisted record; a nil custom-claims map or acceptance time is None. */
  datatype InviteRecord = InviteRecord(
    uid: string,
    status: Status,
    recipient: Recipient,
    inviter: Inviter,
    resource: InviteResource,
    role: string,
    orgName: string,
    returnURL: string,
    expirationDays: int,
    customClaims: Option<map<string, string>>,
    createdAt: int,
    expiresAt: int,
    acceptedAt: Option<int>,
    acceptedBy: string)

  /** The field updates MarkAccepted makes to the record it read. */
  function AcceptRecord(r: InviteRecord, username: string, at: int): InviteRecord {
    r.(status := Accepted, acceptedAt := Some(at), acceptedBy := username)
  }

  predicate IsPending(r: InviteRecord) {
    r.status == Pending && r.acceptedAt == None && r.acceptedBy == ""
  }

  // ---------------------------------------------------------------- request validation

  datatype URL = URL(scheme: string, host: string)

  /** The library parsers, as parameters: mail.ParseAddress and url.Parse. */
  datatype Parsers = Parsers(parseAddress: string -> Option<CanonicalEmail>, parseURL: string -> Option<URL>)

  datatype NotificationConfig = NotificationConfig(defaultReturnURL: string, allowedReturnURLHosts: seq<string>)

  predicate HasSuffix(s: string, suffix: string) {
    |suffix| <= |s| && s[|s| - |suffix|..] == suffix
  }

  predicate MatchHost(host: string, pattern: string) {
    if "*." <= pattern then HasSuffix(host, pattern[1..]) else host == pattern
  }

  /** A wildcard pattern matches exactly the hosts that end in a dot and its domain, whatever comes before;
      never the bare domain itself. */
  lemma WildcardMatchesSubdomains(host: string, domain: string)
    ensures MatchHost(host, "*." + domain) <==> exists sub :: host == sub + "." + domain
    ensures !MatchHost(domain, "*." + domain)
  {
    var suffix := "." + domain;
    assert ("*." + domain)[1..] == suffix;
    if MatchHost(host, "*." + domain) {
      var sub := host[..|host| - |suffix|];
      assert host == sub + suffix == sub + "." + domain;
    }
    forall sub | host == sub + "." + domain ensures MatchHost(host, "*." + domain) {
      assert host == sub + suffix;
    }
  }

  predicate ValidReturnURL(rawURL: string, allowed: seq<string>, parseURL: string -> Option<URL>) {
    || allowed == []
    || (&& parseURL(rawURL).Some?
        && parseURL(rawURL).value.scheme == "https"
        && exists i | 0 <= i < |allowed| :: MatchHost(parseURL(rawURL).value.host, allowed[i]))
  }

  /** A pattern matches itself, when it is no wildcard, and otherwise the subdomains of what follows its "*.". */
  lemma HostMatchesExactly(host: string, pattern: string)
    ensures MatchHost(host, pattern) <==>
              || (host == pattern && !("*." <= pattern))
              || (exists sub, domain :: pattern == "*." + domain && host == sub + "." + domain)
  {
    if "*." <= pattern {
      assert pattern == "*." + pattern[2..];
      WildcardMatchesSubdomains(host, pattern[2..]);
      forall sub, domain | pattern == "*." + domain && host == sub + "." + domain ensures MatchHost(host, pattern) {
        WildcardMatchesSubdomains(host, domain);
      }
    }
    hide HasSuffix;
  }

  /** Which return URLs are admitted: every one when the list is empty, and otherwise exactly the https URLs whose host
      is listed, or is a subdomain of a domain listed behind "*.". */
  lemma AdmittedExactly(rawURL: string, allowed: seq<string>, parseURL: string -> Option<URL>)
    ensures ValidReturnURL(rawURL, allowed, parseURL) <==>
              || |allowed| == 0
              || (&& parseURL(rawURL).Some? && parseURL(rawURL).value.scheme == "https"
                  && var host := parseURL(rawURL).value.host;
                  || (host in allowed && !("*." <= host))
                  || (exists sub, domain :: "*." + domain in allowed && host == sub + "." + domain))
  {
    if parseURL(rawURL).Some? {
      var host := parseURL(rawURL).value.host;
      forall pattern ensures MatchHost(host, pattern) <==>
                               || (host == pattern && !("*." <= pattern))
                               || (exists sub, domain :: pattern == "*." + domain && host == sub + "." + domain)
      {
        HostMatchesExactly(host, pattern);
      }
      hide MatchHost;
    }
  }

  /** A request that passed every check made before a link is generated. */
  datatype Prepared = Prepared(req: SendInviteRequest, email: CanonicalEmail, destURL: string, role: string)

  function Prepare(cfg: NotificationConfig, parsers: Parsers, req: SendInviteRequest): Option<Prepared> {
    var raw := req.ResolvedRecipientEmail();
    if raw == "" then None
    else
      var addr := parsers.parseAddress(raw);
      var role := KeySpace.TrimSpace(req.role);
      if addr.None? || role == "" then None
      else if req.returnURL != ""
              && !ValidReturnURL(req.returnURL, cfg.allowedReturnURLHosts, parsers.parseURL) then None
      else
        var dest := if req.returnURL == "" && cfg.defaultReturnURL != "" then cfg.defaultReturnURL else req.returnURL;
        Some(Prepared(req, addr.value, dest, role))
  }

  lemma BlankTrimsToNothing(s: string)
    ensures KeySpace.TrimSpace(s) == "" <==> KeySpace.AllSpace(s)
  {
    KeySpace.TrimLeftMeans(s);
    KeySpace.TrimRightMeans(KeySpace.TrimLeft(s));
  }

  /** A request is refused exactly when it names no e-mail, in the structured field or else in the scalar, the address
      does not parse, the role is blank, or a return URL is given that the allow-list does not admit. Otherwise what
      goes on is the parsed address, the role without the white space around it, and the caller's URL or, without one,
      the configured default. */
  lemma RefusedExactlyWhen(cfg: NotificationConfig, parsers: Parsers, req: SendInviteRequest)
    ensures var r := Prepare(cfg, parsers, req);
            var email := if req.recipient.Some? && req.recipient.value.email != "" then req.recipient.value.email
                         else req.recipientEmail;
            && (r.None? <==>
                  || email == "" || parsers.parseAddress(email).None? || KeySpace.AllSpace(req.role)
                  || (req.returnURL != ""
                      && !ValidReturnURL(req.returnURL, cfg.allowedReturnURLHosts, parsers.parseURL)))
            && (r.Some? ==>
                  && r.value.req == req && Some(r.value.email) == parsers.parseAddress(email)
                  && r.value.role != "" && (exists a, z :: KeySpace.Around(req.role, a, r.value.role, z))
                  && (req.returnURL != "" ==> r.value.destURL == req.returnURL)
                  && (req.returnURL == "" ==> r.value.destURL == cfg.defaultReturnURL))
  {
    BlankTrimsToNothing(req.role);
    KeySpace.TrimSpaceExactly(req.role, KeySpace.TrimSpace(req.role));
    hide ValidReturnURL, KeySpace.TrimSpace, KeySpace.AllSpace, KeySpace.Around;
  }

  // ---------------------------------------------------------------- derived values

  /** The inputs of link generation. */
  datatype LinkPayload = LinkPayload(
    recipientEmail: Bytes,
    destinationURL: string,
    resourceUID: string,
    resourceType: string,
    role: string,
    expirationDays: int,
    customClaims: map<string, string>)

  function LinkPayloadOf(p: Prepared): LinkPayload {
    LinkPayload(p.email, p.destURL, p.req.ResolvedResourceUID(), p.req.ResolvedResourceType(), p.role,
                p.req.expirationDays, p.req.customClaims)
  }

  function FirstNonEmpty(a: string, b: string): string {
    if a != "" then a else b
  }

  function BuildInviteRecord(uid: string, p: Prepared, expiresAt: int, acceptedClaims: Option<map<string, string>>,
                             now: int): InviteRecord
  {
    var req := p.req;
    var inviter :=
      if req.inviter.Some? then
        req.inviter.value.(name := FirstNonEmpty(req.inviter.value.name, req.ResolvedInviterName()))
      else Inviter(req.ResolvedInviterName(), "", "", "");
    var recipient :=
      if req.recipient.Some? then
        req.recipient.value.(name := FirstNonEmpty(req.recipient.value.name, req.ResolvedRecipientName()),
                           email := p.email)
      else Recipient(req.ResolvedRecipientName(), p.email, "", "");
    var resource := InviteResource(req.ResolvedResourceUID(), req.ResolvedResourceName(), req.ResolvedResourceType(),
                                   req.ResolvedParentResourceName());
    InviteRecord(uid, Pending, recipient, inviter, resource, p.role, req.orgName, p.destURL, req.expirationDays,
                 acceptedClaims, now, expiresAt, None, "")
  }

  // ---------------------------------------------------------------- the public view

  datatype ApiStatus = ApiPending | ApiAccepted

  datatype Invite = Invite(
    uid: string,
    status: ApiStatus,
    recipient: Recipient,
    inviter: Inviter,
    resource: InviteResource,
    role: string,
    orgName: string,
    returnURL: string,
    expirationDays: int,
    customClaims: Option<map<string, string>>,
    createdAt: int,
    expiresAt: int,
    acceptedAt: Option<int>,
    acceptedBy: string)

  function DomainToAPIInvite(r: InviteRecord): Invite {
    Invite(r.uid, match r.status { case Pending => ApiPending case Accepted => ApiAccepted }, r.recipient, r.inviter,
           r.resource, r.role, r.orgName, r.returnURL, r.expirationDays, r.customClaims, r.createdAt, r.expiresAt,
           r.acceptedAt, r.acceptedBy)
  }

  /** The record a view shows. */
  function RecordShown(v: Invite): InviteRecord {
    InviteRecord(v.uid, match v.status { case ApiPending => Pending case ApiAccepted => Accepted },
                 v.recipient, v.inviter,
                 v.resource, v.role, v.orgName, v.returnURL, v.expirationDays, v.customClaims, v.createdAt, v.expiresAt,
                 v.acceptedAt, v.acceptedBy)
  }

  /** The view loses nothing and invents nothing, field by field. */
  lemma ViewIsFaithful(r: InviteRecord, v: Invite)
    ensures DomainToAPIInvite(r) == v <==> r == RecordShown(v)
  {
  }

  datatype InviteAcceptedEvent<T> = InviteAcceptedEvent(inviteUID: string, username: string, token: T)
}
