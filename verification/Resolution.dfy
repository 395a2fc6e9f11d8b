/** Structured request fields and the deprecated scalars they replace: what either form of a request leads to. */
module Resolution {
  import opened Base
  import opened Model
  import opened Protocol
  import Auth

  /** Two accepted requests lead to the same token, e-mail and record. */
  ghost predicate SameInvite(p: Prepared, q: Prepared) {
    && p.email == q.email && LinkPayloadOf(p) == LinkPayloadOf(q)
    && (forall link :: EmailPayload(p, link) == EmailPayload(q, link))
    && (forall uid, expiresAt, claims, now ::
          BuildInviteRecord(uid, p, expiresAt, claims, now) == BuildInviteRecord(uid, q, expiresAt, claims, now))
  }

  /** Both are refused, or both are accepted and lead to the same invite. */
  ghost predicate SameFate(p: Option<Prepared>, q: Option<Prepared>) {
    (p.None? <==> q.None?) && (p.Some? ==> SameInvite(p.value, q.value))
  }

  predicate OnlyScalars(req: SendInviteRequest) {
    req.recipient.None? && req.inviter.None? && req.resource.None?
  }

  /** The structured form of a request written with the deprecated scalars. */
  function Structured(req: SendInviteRequest): SendInviteRequest {
    SendInviteRequest(
      Some(Recipient(req.recipientName, req.recipientEmail, "", "")),
      Some(Inviter(req.inviterName, "", "", "")),
      Some(InviteResource(req.resourceUID, req.resourceName, req.resourceType, "")),
      "", "", "", "", "", "",
      req.role, req.returnURL, req.orgName, req.expirationDays, req.customClaims, req.recipientHasAccount)
  }

  /** Backward compatibility: a request written with the deprecated scalars meets the same fate as its structured
      form. */
  lemma ScalarsStandIn(cfg: NotificationConfig, parsers: Parsers, req: SendInviteRequest)
    requires OnlyScalars(req)
    ensures SameFate(Prepare(cfg, parsers, req), Prepare(cfg, parsers, Structured(req)))
  {
    hide ValidReturnURL;
  }

  /** Every structured field that stands in for a scalar is present and non-empty. */
  predicate FullyStructured(req: SendInviteRequest) {
    && req.recipient.Some? && req.recipient.value.email != "" && req.recipient.value.name != ""
    && req.inviter.Some? && req.inviter.value.name != ""
    && req.resource.Some? && req.resource.value.uid != "" && req.resource.value.name != ""
    && req.resource.value.kind != ""
  }

  /** other is req but for the deprecated scalars. */
  predicate SameButScalars(req: SendInviteRequest, other: SendInviteRequest) {
    other == req.(recipientEmail := other.recipientEmail, recipientName := other.recipientName,
                  inviterName := other.inviterName,
                  resourceUID := other.resourceUID, resourceName := other.resourceName,
                  resourceType := other.resourceType)
  }

  /** Where the structured fields are filled in, the scalars have no influence at all. */
  lemma StructuredFieldsWin(cfg: NotificationConfig, parsers: Parsers, req: SendInviteRequest, other: SendInviteRequest)
    requires FullyStructured(req) && SameButScalars(req, other)
    ensures SameFate(Prepare(cfg, parsers, req), Prepare(cfg, parsers, other))
  {
    hide ValidReturnURL;
  }

  /** No default resource type: a request that names none gets a token without the claim, and a record and an e-mail
      with an empty type. */
  lemma UntypedStaysUntyped(st: Settings, i: Issued)
    requires i.p.req.resourceType == "" && (i.p.req.resource.None? || i.p.req.resource.value.kind == "")
    ensures "resource_type" !in TokenOf(st, i).claims
    ensures RecordOf(i).resource.kind == "" && EmailOf(st, i).resourceType == ""
  {
    IssuedFieldsAgree(st, i);
    hide Auth.MintedClaims, Auth.AcceptedClaims, Auth.ExpiresAt;
  }
}
