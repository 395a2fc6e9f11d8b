/** InviteReadService: queries over the invite store, answered with the public view. */
module InviteRead {
  import opened Base
  import opened Model
  import opened KeyValue
  import opened Protocol
  import opened Lifecycle
  import opened Lookup
  import opened World
  import opened InviteStore
  import opened Repository
  import opened StoreTheorems
  import opened Settled
  import Finality
  import Stability
  import KeySpace

  datatype ReadError = ErrInvalidRequest | ErrStore(error: StoreError)

  type Invites = Result<seq<Invite>, ReadError>

  function Views(rs: seq<InviteRecord>): (vs: seq<Invite>)
    ensures |vs| == |rs|
  {
    seq(|rs|, i requires 0 <= i < |rs| => DomainToAPIInvite(rs[i]))
  }

  /** A query for text has been answered r: by the views, in order, of what the store's lookup found for the address
      the text parses to, or for the text itself where it does not parse. */
  ghost predicate Answered(parsers: Parsers, text: Bytes, sh0: Protocol.Shared, log0: seq<Obs>, listed: Protocol.Shared,
                           l: Option<Listing>, moment: map<string, Protocol.Shared>, sh: Protocol.Shared,
                           log: seq<Obs>, found: Records, r: Invites)
  {
    && (match parsers.parseAddress(text)
        case Some(address) => LookupContract(sh0, log0, listed, l, moment, sh, log, address, found)
        case None => LookupContract(sh0, log0, listed, l, moment, sh, log, text, found))
    && r == if found.Ok? then Ok(Views(found.value)) else Err(ErrStore(found.error))
  }

  class InviteReadService {
    const inviteStore: NATSInviteRepository
    const parsers: Parsers

    constructor (store: NATSInviteRepository, parsers: Parsers)
      ensures inviteStore == store && this.parsers == parsers
    {
      inviteStore, this.parsers := store, parsers;
    }

    /** The view of the record under the UID as of one read; an empty UID is refused without reading. */
    method GetInvite(uid: string) returns (r: Result<Invite, ReadError>)
      requires inviteStore.kv.Valid() && inviteStore.kv.pc.Untracked?
      modifies inviteStore.kv
      ensures inviteStore.kv.Valid()
      ensures uid == "" ==> r == Err(ErrInvalidRequest) && inviteStore.kv.log == old(inviteStore.kv.log)
      ensures uid != "" ==>
                var n, log := |old(inviteStore.kv.log)|, inviteStore.kv.log;
                && |log| == n + 1 && ReadOk(log[n], uid)
                && match DecodeGet(log[n].res.get)
                   case Ok(record) => r == Ok(DomainToAPIInvite(record))
                   case Err(e) => r == Err(ErrStore(e))
    {
      hide BucketOk, Stability.Grows, Env, ObsOk, Advance, Perform, Allowed, Call, Resume, Running, Client.Valid,
        ReadOk;
      if uid == "" {
        return Err(ErrInvalidRequest);
      }
      var record := inviteStore.GetByUID(uid);
      if record.Err? {
        return Err(ErrStore(record.error));
      }
      r := Ok(DomainToAPIInvite(record.value));
    }

    /** The views of what the store's lookup of the canonical e-mail returned, in order; an empty e-mail is
        refused without a lookup. */
    method GetInvitesByEmail(email: Bytes)
        returns (r: Invites, ghost found: Records, ghost l: Option<Listing>,
                 ghost moment: map<string, Protocol.Shared>, ghost listed: Protocol.Shared)
      requires inviteStore.kv.Valid() && inviteStore.kv.pc.Untracked?
      modifies inviteStore.kv
      ensures inviteStore.kv.Valid()
      ensures email == "" ==> r == Err(ErrInvalidRequest) && inviteStore.kv.log == old(inviteStore.kv.log)
      ensures email != "" ==>
                Answered(parsers, email, old(inviteStore.kv.shared), old(inviteStore.kv.log), listed, l, moment,
                         inviteStore.kv.shared, inviteStore.kv.log, found, r)
    {
      hide BucketOk, Client.Valid, LookupContract, DomainToAPIInvite;
      found, l, moment, listed := Ok([]), None, map[], inviteStore.kv.shared;
      if email == "" {
        r := Err(ErrInvalidRequest);
        return;
      }
      var canonical := email;
      var addr := parsers.parseAddress(email);
      if addr.Some? {
        canonical := addr.value;
      }
      var records;
      records, l, moment, listed := inviteStore.GetByEmail(canonical);
      found := records;
      if records.Err? {
        r := Err(ErrStore(records.error));
        return;
      }
      var invites: seq<Invite> := [];
      for i := 0 to |records.value|
        invariant |invites| == i && forall j | 0 <= j < i :: invites[j] == DomainToAPIInvite(records.value[j])
      {
        invites := invites + [DomainToAPIInvite(records.value[i])];
      }
      assert invites == Views(records.value);
      r := Ok(invites);
    }
  }

  // ---------------------------------------------------------------- what the answers mean

  /** The views of exactly the live records of the e-mail, each once. */
  ghost predicate ExactlyViewsOf(b: Bucket, email: Bytes, vs: seq<Invite>) {
    && (forall i, j | 0 <= i < j < |vs| :: vs[i].uid != vs[j].uid)
    && (forall r: InviteRecord :: DomainToAPIInvite(r) in vs <==> IsLiveRecord(b, r, email))
  }

  lemma ViewsOfRecords(b: Bucket, email: Bytes, rs: seq<InviteRecord>)
    requires ExactlyRecordsOf(b, email, rs)
    ensures ExactlyViewsOf(b, email, Views(rs))
  {
    hide IsLiveRecord;
    var vs := Views(rs);
    forall r: InviteRecord ensures DomainToAPIInvite(r) in vs <==> IsLiveRecord(b, r, email) {
      if DomainToAPIInvite(r) in vs {
        var i :| 0 <= i < |vs| && vs[i] == DomainToAPIInvite(r);
        ViewIsFaithful(r, vs[i]);
        ViewIsFaithful(rs[i], vs[i]);
        assert rs[i] in rs;
      }
      if r in rs {
        var i :| 0 <= i < |rs| && rs[i] == r;
        assert vs[i] == DomainToAPIInvite(r);
      }
    }
  }

  lemma SettledLookup(d: Deployment, t: int, es: seq<Event>, log0: seq<Obs>, listed: Protocol.Shared,
                      l: Option<Listing>, moment: map<string, Protocol.Shared>, sh: Protocol.Shared, log: seq<Obs>,
                      email: Bytes, found: Records)
    requires SettledFor(Run(d, Init(t), es), email)
    requires LookupContract(Run(d, Init(t), es).shared, log0, listed, l, moment, sh, log, email, found) && found.Ok?
    requires sh.kv == Run(d, Init(t), es).shared.kv
    ensures ExactlyViewsOf(sh.kv, email, Views(found.value))
  {
    hide Run, Init, SettledFor, LookupContract, ExactlyRecordsOf, ExactlyViewsOf, Coherent, IndexComplete, BucketOk,
      Views;
    ReachableCoherent(d, t, es);
    SettledIsComplete(d, t, es, email);
    UndisturbedLookupIsExact(Run(d, Init(t), es).shared, log0, listed, l, moment, sh, log, email, found);
    ViewsOfRecords(sh.kv, email, found.value);
  }

  /** A query made while nobody interferes, at any point of any run at which the address asked for is settled, answers
      with the views of exactly the live records of that address, each once: of the address the query parses to, and
      of the raw text where it does not parse. */
  lemma SettledReadIsExact(d: Deployment, t: int, es: seq<Event>, parsers: Parsers, text: Bytes, log0: seq<Obs>,
                           listed: Protocol.Shared, l: Option<Listing>, moment: map<string, Protocol.Shared>,
                           sh: Protocol.Shared, log: seq<Obs>, found: Records, r: Invites)
    requires Answered(parsers, text, Run(d, Init(t), es).shared, log0, listed, l, moment, sh, log, found, r) && r.Ok?
    requires sh.kv == Run(d, Init(t), es).shared.kv
    ensures match parsers.parseAddress(text)
            case Some(address) => SettledFor(Run(d, Init(t), es), address) ==> ExactlyViewsOf(sh.kv, address, r.value)
            case None => SettledFor(Run(d, Init(t), es), text) ==> ExactlyViewsOf(sh.kv, text, r.value)
  {
    hide Run, Init, SettledFor, LookupContract, ExactlyViewsOf, Views;
    var asked: Bytes := match parsers.parseAddress(text) case Some(address) => address case None => text;
    if SettledFor(Run(d, Init(t), es), asked) {
      SettledLookup(d, t, es, log0, listed, l, moment, sh, log, asked, found);
    }
  }

  // ---------------------------------------------------------------- answers while others write

  /** b is the bucket at some point of some run. */
  ghost predicate OfRun(d: Deployment, t: int, b: Bucket) {
    exists es: seq<Event> :: Run(d, Init(t), es).shared.kv == b
  }

  lemma OfRunCoherent(d: Deployment, t: int, b: Bucket)
    requires OfRun(d, t, b)
    ensures Coherent(b)
  {
    hide Run, Init, Coherent, BucketOk;
    var es: seq<Event> :| Run(d, Init(t), es).shared.kv == b;
    ReachableCoherent(d, t, es);
  }

  /** Soundness of a lookup among the protocol's handlers: whatever they write, delete or fail to do while it runs,
      every record returned has the e-mail asked for and was current when it was read, and no invite is returned
      twice. */
  lemma LookupIsSoundInRuns(d: Deployment, t: int, sh0: Protocol.Shared, log0: seq<Obs>, listed: Protocol.Shared,
                            l: Option<Listing>, moment: map<string, Protocol.Shared>, sh: Protocol.Shared,
                            log: seq<Obs>, email: Bytes, r: Records)
    requires LookupContract(sh0, log0, listed, l, moment, sh, log, email, r) && r.Ok? && log0 <= log
    requires forall k | k in moment :: OfRun(d, t, moment[k].kv)
    requires forall j | |log0| <= j < |log| :: OfRun(d, t, log[j].before.kv)
    ensures forall rec | rec in r.value :: exists j :: |log0| <= j < |log| && CurrentMatch(log[j], rec, email)
    ensures forall i, j | 0 <= i < j < |r.value| :: r.value[i].uid != r.value[j].uid
  {
    hide OfRun, Coherent, LookupContract, CurrentMatch;
    var obs := log[|log0|..];
    forall k | k in moment ensures Coherent(moment[k].kv) {
      OfRunCoherent(d, t, moment[k].kv);
    }
    forall i | 0 <= i < |obs| ensures Coherent(obs[i].before.kv) {
      assert obs[i] == log[|log0| + i];
      OfRunCoherent(d, t, obs[i].before.kv);
    }
    LookupIsSound(sh0, log0, listed, l, moment, sh, log, email, r);
  }

  /** Up to a coherent bucket, every record ever current under a slash-free key was a record of that UID. */
  lemma RecordReadUnder(b: Bucket, b2: Bucket, uid: string)
    requires Coherent(b2) && Extends(b, b2) && SlashFree(uid)
    requires Current(b, uid).Some? && Current(b, uid).value.value.Rec?
    ensures Current(b, uid).value.value.record.uid == uid
  {
    hide IndexHistory;
    ExtendsHist(b, b2, uid);
    assert uid in b2.hist && RecordHistory(b2.hist[uid], uid);
    var h := Hist(b, uid);
    assert h[|h| - 1] == Hist(b2, uid)[|h| - 1];
  }

  lemma ReturnedView(sh0: Protocol.Shared, log0: seq<Obs>, listed: Protocol.Shared, l: Option<Listing>,
                     moment: map<string, Protocol.Shared>, sh: Protocol.Shared, log: seq<Obs>, email: Bytes,
                     found: Records, uid: string)
    requires LookupContract(sh0, log0, listed, l, moment, sh, log, email, found) && found.Ok?
    requires Coherent(sh.kv) && SlashFree(uid) && Returned(log0, log, uid, found.value)
    ensures exists v :: v in Views(found.value) && v.uid == uid
  {
    hide LookupContract, ListingOk, Collect, ScanUids, Env, ReadOk, Coherent, Current, LiveKey, SlashFree;
    LookupParts(sh0, log0, listed, l, moment, sh, log, email, found);
    var obs, uids := log[|log0|..], ScanUids(l.value.keys, email);
    var j :| |log0| <= j < |log| && ReadAndReturned(log[j], uid, found.value);
    assert log[j] == obs[j - |log0|];
    assert Env(obs[j - |log0|].before, sh);
    EnvExtends(log[j].before, sh);
    RecordReadUnder(log[j].before.kv, sh.kv, uid);
    var rec := Current(log[j].before.kv, uid).value.value.record;
    var k :| 0 <= k < |found.value| && found.value[k] == rec;
    assert Views(found.value)[k] == DomainToAPIInvite(rec);
  }

  lemma SentRecordIsReturned(d: Deployment, t: int, es: seq<Event>, fs: seq<Event>, h: nat, i: Issued, log0: seq<Obs>,
                             listed: Protocol.Shared, l: Option<Listing>, moment: map<string, Protocol.Shared>,
                             sh: Protocol.Shared, log: seq<Obs>, email: Bytes, found: Records)
    requires h in Run(d, Init(t), es).procs && Run(d, Init(t), es).procs[h] == SDone(Sent(i))
    requires KeySpace.SameAddress(email, i.p.email)
    requires LookupContract(Run(d, Init(t), es).shared, log0, listed, l, moment, sh, log, email, found) && found.Ok?
    requires sh.kv == Run(d, Init(t), es + fs).shared.kv
    ensures Returned(log0, log, i.uid, found.value)
    ensures exists v :: v in Views(found.value) && v.uid == i.uid
  {
    hide Run, Init, LookupContract, Coherent, BucketOk, KeySpace.SameAddress, KeySpace.EmailIndexKey, LiveKey,
      LiveThroughout, Returned, SlashFree;
    var s := Run(d, Init(t), es);
    Finality.SentInviteStays(d, t, es, fs, h, i);
    LookupIsComplete(s.shared, log0, listed, l, moment, sh, log, email, found, i.p.email, i.uid);
    ReachableCoherent(d, t, es + fs);
    ReturnedView(s.shared, log0, listed, l, moment, sh, log, email, found, i.uid);
  }

  /** Read your sends, while others write: an invite whose send has been answered with success is among the answers of
      every later successful query whose text parses to its recipient's address, in any case and with any white space
      around it, or, unparsed, is that address, whatever other handlers send, accept, roll back or fail to do before
      and during the query. */
  lemma SentInviteIsListed(d: Deployment, t: int, es: seq<Event>, fs: seq<Event>, h: nat, i: Issued, parsers: Parsers,
                           text: Bytes, log0: seq<Obs>, listed: Protocol.Shared, l: Option<Listing>,
                           moment: map<string, Protocol.Shared>, sh: Protocol.Shared, log: seq<Obs>, found: Records,
                           r: Invites)
    requires h in Run(d, Init(t), es).procs && Run(d, Init(t), es).procs[h] == SDone(Sent(i))
    requires match parsers.parseAddress(text)
             case Some(address) => KeySpace.SameAddress(address, i.p.email)
             case None => KeySpace.SameAddress(text, i.p.email)
    requires Answered(parsers, text, Run(d, Init(t), es).shared, log0, listed, l, moment, sh, log, found, r) && r.Ok?
    requires sh.kv == Run(d, Init(t), es + fs).shared.kv
    ensures Returned(log0, log, i.uid, found.value)
    ensures exists v :: v in r.value && v.uid == i.uid
  {
    hide Run, Init, LookupContract, KeySpace.SameAddress, Returned, Views;
    var asked: Bytes := match parsers.parseAddress(text) case Some(address) => address case None => text;
    SentRecordIsReturned(d, t, es, fs, h, i, log0, listed, l, moment, sh, log, asked, found);
  }

  /** The same when nobody writes during the query. */
  lemma SentInviteIsListedUndisturbed(d: Deployment, t: int, es: seq<Event>, h: nat, i: Issued, parsers: Parsers,
                                      text: Bytes, log0: seq<Obs>, listed: Protocol.Shared, l: Option<Listing>,
                                      moment: map<string, Protocol.Shared>, sh: Protocol.Shared, log: seq<Obs>,
                                      found: Records, r: Invites)
    requires h in Run(d, Init(t), es).procs && Run(d, Init(t), es).procs[h] == SDone(Sent(i))
    requires match parsers.parseAddress(text)
             case Some(address) => KeySpace.SameAddress(address, i.p.email)
             case None => KeySpace.SameAddress(text, i.p.email)
    requires Answered(parsers, text, Run(d, Init(t), es).shared, log0, listed, l, moment, sh, log, found, r) && r.Ok?
    requires sh.kv == Run(d, Init(t), es).shared.kv
    ensures exists v :: v in r.value && v.uid == i.uid
  {
    hide Run, Init, Answered, KeySpace.SameAddress, Returned;
    assert es + [] == es;
    SentInviteIsListed(d, t, es, [], h, i, parsers, text, log0, listed, l, moment, sh, log, found, r);
  }

  lemma FoundMatches(log0: seq<Obs>, log: seq<Obs>, email: Bytes, rec: InviteRecord)
    requires exists j :: |log0| <= j < |log| && CurrentMatch(log[j], rec, email)
    ensures KeySpace.SameAddress(email, rec.recipient.email)
  {
    hide KeySpace.SameAddress, Current;
  }

  lemma AnswersMatch(log0: seq<Obs>, log: seq<Obs>, email: Bytes, rs: seq<InviteRecord>)
    requires forall rec | rec in rs :: exists j :: |log0| <= j < |log| && CurrentMatch(log[j], rec, email)
    requires forall i, j | 0 <= i < j < |rs| :: rs[i].uid != rs[j].uid
    ensures forall v | v in Views(rs) :: KeySpace.SameAddress(email, v.recipient.email)
    ensures forall i, j | 0 <= i < j < |Views(rs)| :: Views(rs)[i].uid != Views(rs)[j].uid
  {
    hide KeySpace.SameAddress, CurrentMatch;
    forall v | v in Views(rs) ensures KeySpace.SameAddress(email, v.recipient.email) {
      var i :| 0 <= i < |rs| && Views(rs)[i] == v;
      assert rs[i] in rs;
      FoundMatches(log0, log, email, rs[i]);
    }
  }

  /** A query shows nobody else's invites: whatever happens while it runs, every invite in the answer was sent to the
      address asked for, up to ASCII case and surrounding white space, and none is shown twice. */
  lemma AnswersAreForTheAddress(d: Deployment, t: int, parsers: Parsers, text: Bytes, sh0: Protocol.Shared,
                                log0: seq<Obs>, listed: Protocol.Shared, l: Option<Listing>,
                                moment: map<string, Protocol.Shared>, sh: Protocol.Shared, log: seq<Obs>,
                                found: Records, r: Invites)
    requires Answered(parsers, text, sh0, log0, listed, l, moment, sh, log, found, r) && r.Ok? && log0 <= log
    requires forall k | k in moment :: OfRun(d, t, moment[k].kv)
    requires forall j | |log0| <= j < |log| :: OfRun(d, t, log[j].before.kv)
    ensures forall v | v in r.value ::
              match parsers.parseAddress(text)
              case Some(address) => KeySpace.SameAddress(address, v.recipient.email)
              case None => KeySpace.SameAddress(text, v.recipient.email)
    ensures forall i, j | 0 <= i < j < |r.value| :: r.value[i].uid != r.value[j].uid
  {
    hide OfRun, LookupContract, KeySpace.SameAddress, Views, CurrentMatch;
    var asked: Bytes := match parsers.parseAddress(text) case Some(address) => address case None => text;
    LookupIsSoundInRuns(d, t, sh0, log0, listed, l, moment, sh, log, asked, found);
    AnswersMatch(log0, log, asked, found.value);
  }
}
