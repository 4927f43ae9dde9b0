/**
 * What a chain of trust lists leads to: full lists forget everything before, and a lookup finds the
 * last addition of its key that no later deletion took back.
 */
module TrustProofs {
  import opened Sequences
  import opened TrustModel

  // ---------------------------------------------------------------- runs

  lemma {:induction false} AppliedSplit(t: Trust, a: seq<Event>, b: seq<Event>, digest: Certificate -> Id)
    ensures AppliedAll(t, a + b, digest) == AppliedAll(AppliedAll(t, a, digest), b, digest)
    decreases |b|
  {
    if b == [] {
      assert a + b == a;
    } else {
      var n := |b| - 1;
      AppliedSplit(t, a, b[..n], digest);
      AppliedLast(t, a, b, n, digest);
    }
  }

  lemma {:induction false} AppliedLast(t: Trust, a: seq<Event>, b: seq<Event>, n: nat, digest: Certificate -> Id)
    requires |b| == n + 1
    ensures AppliedAll(t, a + b, digest) == Applied(AppliedAll(t, a + b[..n], digest), b[n], digest)
  {
    assert (a + b)[..|a + b| - 1] == a + b[..n];
  }

  /** Processing lists one by one is applying all their events in order. */
  lemma {:induction false} ListsAreEvents(t: Trust, lists: seq<TrustList>, digest: Certificate -> Id)
    ensures ProcessedAll(t, lists, digest) == AppliedAll(t, EventsOfAll(lists), digest)
    decreases |lists|
  {
    if lists != [] {
      var n := |lists| - 1;
      ListsAreEvents(t, lists[..n], digest);
      AppliedSplit(t, EventsOfAll(lists[..n]), EventsOf(lists[n]), digest);
    }
  }

  /**
   * What a list does: nothing unless it is signed, can be decoded and is a trust list; else its commands
   * run one after the other under its signer, after everything is cleared if it is a full one.
   */
  lemma {:induction false} ListDoes(list: TrustList, events: seq<Event>)
    requires events == EventsOf(list)
    ensures list.signer.None? || list.payload.NoPayload? || list.payload.Undecodable? ==> events == []
    ensures list.payload == Management(None) ==> events == []
    ensures list.signer.Some? && list.payload.Management? && list.payload.format.Some? ==>
              var (format, clears) := (list.payload.format.value, if list.payload.format.value.full then 1 else 0);
              && |events| == clears + |format.commands|
              && (format.full ==> events[0] == Clear)
              && forall i :: 0 <= i < |format.commands| ==>
                   events[clears + i] == Run(format.commands[i], list.signer.value)
  {
  }

  lemma {:induction false} FullForgets(t: Trust, u: Trust, list: TrustList, digest: Certificate -> Id)
    requires Full(list)
    ensures Processed(t, list, digest) == Processed(u, list, digest)
  {
    var runs := Runs(list.payload.format.value.commands, list.signer.value);
    AppliedSplit(t, [Clear], runs, digest);
    AppliedSplit(u, [Clear], runs, digest);
    ClearForgets(t, digest);
    ClearForgets(u, digest);
  }

  lemma {:induction false} ClearForgets(t: Trust, digest: Certificate -> Id)
    ensures AppliedAll(t, [Clear], digest) == Empty()
  {
    assert [Clear][..0] == [];
  }

  lemma {:induction false} ProcessedSnoc(t: Trust, lists: seq<TrustList>, list: TrustList, digest: Certificate -> Id)
    ensures ProcessedAll(t, lists + [list], digest) == Processed(ProcessedAll(t, lists, digest), list, digest)
  {
    TakeInit(lists, list);
  }

  /** Whatever was processed before a full list, and by whatever processor, does not matter after it. */
  lemma {:induction false} FullListForgets(
    t: Trust, u: Trust, before: seq<TrustList>, full: TrustList, after: seq<TrustList>, digest: Certificate -> Id)
    requires Full(full)
    ensures ProcessedAll(t, before + [full] + after, digest) == ProcessedAll(u, [full] + after, digest)
    decreases |after|
  {
    if after == [] {
      AddNothing(before + [full]);
      AddNothing([full]);
      ProcessedSnoc(t, before, full, digest);
      ProcessedSnoc(u, [], full, digest);
      FullForgets(ProcessedAll(t, before, digest), ProcessedAll(u, [], digest), full, digest);
    } else {
      var (init, last) := (after[..|after| - 1], after[|after| - 1]);
      assert after == init + [last];
      FullListForgets(t, u, before, full, init, digest);
      Assoc(before + [full], init, [last]);
      Assoc([full], init, [last]);
      ProcessedSnoc(t, before + [full] + init, last, digest);
      ProcessedSnoc(u, [full] + init, last, digest);
    }
  }

  lemma {:induction false} SplitAt<T>(s: seq<T>, k: nat)
    requires k < |s|
    ensures s == s[..k] + [s[k]] + s[k + 1..] && s[k..] == [s[k]] + s[k + 1..]
  {
  }

  /**
   * The state after a chain of lists is that of a fresh processor (or one in any state) fed only the
   * part of the chain from a readable full list on. The last full list is the shortest such part.
   */
  lemma {:induction false} FullListStartsAnew(
    t: Trust, u: Trust, lists: seq<TrustList>, k: nat, digest: Certificate -> Id)
    requires k < |lists| && Full(lists[k])
    ensures ProcessedAll(t, lists, digest) == ProcessedAll(u, lists[k..], digest)
  {
    SplitAt(lists, k);
    FullListForgets(t, u, lists[..k], lists[k], lists[k + 1..], digest);
  }

  // ---------------------------------------------------------------- one key

  /** What an event does to the value under one key. */
  datatype Write<V> = Keep | Put(value: V) | Drop | DropIf(only: V)

  function Written<V(==)>(slot: Option<V>, w: Write<V>): Option<V> {
    match w
    case Keep => slot
    case Put(v) => Some(v)
    case Drop => None
    case DropIf(v) => if slot == Some(v) then None else slot
  }

  function WrittenAll<V(==)>(ws: seq<Write<V>>): Option<V> {
    if ws == [] then None else Written(WrittenAll(ws[..|ws| - 1]), ws[|ws| - 1])
  }

  /** The write leaves a value v alone. */
  predicate Spares<V(==)>(w: Write<V>, v: V) {
    w == Keep || (w.DropIf? && w.only != v)
  }

  /** The k-th write put v and no later one touched it. */
  ghost predicate PutLast<V>(ws: seq<Write<V>>, v: V, k: nat) {
    k < |ws| && ws[k] == Put(v) && forall j :: k < j < |ws| ==> Spares(ws[j], v)
  }

  /** A key holds a value exactly if some write put it and every later write spared it. */
  lemma {:induction false} LastPutCounts<V>(ws: seq<Write<V>>, v: V)
    ensures WrittenAll(ws) == Some(v) <==> exists k: nat :: PutLast(ws, v, k)
    decreases |ws|
  {
    if ws != [] {
      var n := |ws| - 1;
      LastPutCounts(ws[..n], v);
      if ws[n] == Put(v) {
        assert PutLast(ws, v, n);
      } else if WrittenAll(ws) == Some(v) {
        var k: nat :| PutLast(ws[..n], v, k);
        assert PutLast(ws, v, k);
      } else if k: nat :| PutLast(ws, v, k) {
        assert Spares(ws[n], v);
        assert PutLast(ws[..n], v, k);
      }
    }
  }

  function Project<V>(events: seq<Event>, write: Event -> Write<V>): (r: seq<Write<V>>)
    ensures |r| == |events| && forall i :: 0 <= i < |r| ==> r[i] == write(events[i])
  {
    seq(|events|, i requires 0 <= i < |events| => write(events[i]))
  }

  /** A lookup of the trust state changes with every event as the write says. */
  ghost predicate Tracks<V>(get: Trust -> Option<V>, write: Event -> Write<V>, digest: Certificate -> Id) {
    && get(Empty()) == None
    && forall t, e :: get(Applied(t, e, digest)) == Written(get(t), write(e))
  }

  lemma {:induction false} ProjectCut<V>(events: seq<Event>, write: Event -> Write<V>, n: nat)
    requires |events| == n + 1
    ensures Project(events, write)[..n] == Project(events[..n], write)
    ensures WrittenAll(Project(events, write)) == Written(WrittenAll(Project(events[..n], write)), write(events[n]))
  {
  }

  lemma {:induction false} TracksRuns<V>(
    get: Trust -> Option<V>, write: Event -> Write<V>, digest: Certificate -> Id, events: seq<Event>)
    requires Tracks(get, write, digest)
    ensures get(AppliedAll(Empty(), events, digest)) == WrittenAll(Project(events, write))
    decreases |events|
  {
    if events != [] {
      var n := |events| - 1;
      TracksRuns(get, write, digest, events[..n]);
      ProjectCut(events, write, n);
      assert AppliedAll(Empty(), events, digest)
          == Applied(AppliedAll(Empty(), events[..n], digest), events[n], digest);
    }
  }

  /** After every chain of lists, a lookup finds the last value put under its key, unless later dropped. */
  lemma {:induction false} FindsLastPut<V>(
    get: Trust -> Option<V>, write: Event -> Write<V>, digest: Certificate -> Id, lists: seq<TrustList>, v: V)
    requires Tracks(get, write, digest)
    ensures get(ProcessedAll(Empty(), lists, digest)) == Some(v)
       <==> exists k: nat :: PutLast(Project(EventsOfAll(lists), write), v, k)
  {
    ListsAreEvents(Empty(), lists, digest);
    TracksRuns(get, write, digest, EventsOfAll(lists));
    LastPutCounts(Project(EventsOfAll(lists), write), v);
  }

  // ---------------------------------------------------------------- distribution centres

  function CentreWrite(e: Event, id: Id): Write<string> {
    match e
    case Clear => Drop
    case Run(Add(DcEntry(url, certificates)), _) => if Some(id) in certificates then Put(url) else Keep
    case Run(Delete(OfCertificate(x)), _) => if x == id then Drop else Keep
    case Run(Delete(OfCentre(url)), _) => DropIf(url)
    case _ => Keep
  }

  function CentreAt(id: Id): Trust -> Option<string> {
    (t: Trust) => Lookup(t.centres, id)
  }

  function CentreWrites(id: Id): Event -> Write<string> {
    (e: Event) => CentreWrite(e, id)
  }

  lemma {:induction false} CentreAddedAt(centres: map<Id, string>, url: string, certificates: seq<Option<Id>>, id: Id)
    ensures Lookup(CentreAdded(centres, url, certificates), id)
         == if Some(id) in certificates then Some(url) else Lookup(centres, id)
    decreases |certificates|
  {
    if certificates != [] {
      var n := |certificates| - 1;
      CentreAddedAt(centres, url, certificates[..n], id);
      assert certificates == certificates[..n] + [certificates[n]];
    }
  }

  lemma {:induction false} CentreEntered(t: Trust, entry: Entry, signer: Id, id: Id, digest: Certificate -> Id)
    ensures Lookup(Entered(t, entry, signer, digest).centres, id)
         == Written(Lookup(t.centres, id), CentreWrite(Run(Add(entry), signer), id))
  {
    if entry.DcEntry? {
      CentreAddedAt(t.centres, entry.url, entry.certificates, id);
    }
  }

  lemma {:induction false} CentreDeleted(t: Trust, removal: Removal, signer: Id, id: Id)
    ensures Lookup(Deleted(t, removal).centres, id)
         == Written(Lookup(t.centres, id), CentreWrite(Run(Delete(removal), signer), id))
  {
  }

  lemma {:induction false} CentreStep(t: Trust, e: Event, id: Id, digest: Certificate -> Id)
    ensures Lookup(Applied(t, e, digest).centres, id) == Written(Lookup(t.centres, id), CentreWrite(e, id))
  {
    match e
    case Clear =>
    case Run(Add(entry), signer) => CentreEntered(t, entry, signer, id, digest);
    case Run(Delete(removal), signer) => CentreDeleted(t, removal, signer, id);
    case Run(OtherCommand, _) =>
  }

  /** The event registers a distribution centre under a digest. */
  predicate AddsCentre(e: Event, id: Id) {
    e.Run? && e.command.Add? && e.command.entry.DcEntry? && Some(id) in e.command.entry.certificates
  }

  /** The event deletes a digest, a URL or everything. */
  predicate TakesCentre(e: Event, id: Id, url: string) {
    e == Clear || (e.Run? && (e.command == Delete(OfCertificate(id)) || e.command == Delete(OfCentre(url))))
  }

  ghost predicate LastCentre(events: seq<Event>, id: Id, url: string, k: nat) {
    && k < |events| && AddsCentre(events[k], id) && events[k].command.entry.url == url
    && forall j :: k < j < |events| ==> !AddsCentre(events[j], id) && !TakesCentre(events[j], id, url)
  }

  lemma {:induction false} LastCentreIsPutLast(events: seq<Event>, id: Id, url: string, k: nat)
    ensures LastCentre(events, id, url, k) <==> PutLast(Project(events, CentreWrites(id)), url, k)
  {
    var ws := Project(events, CentreWrites(id));
    forall j | 0 <= j < |events|
      ensures Spares(ws[j], url) <==> !AddsCentre(events[j], id) && !TakesCentre(events[j], id, url) {
    }
  }

  /**
   * For every chain of lists: a distribution centre is found under a digest exactly if its URL is the
   * one of the digest's last addition and no later command deletes that digest or that URL, nor does a
   * later full list start anew.
   */
  lemma {:induction false} CentreIsLastAdded(lists: seq<TrustList>, id: Id, url: string, digest: Certificate -> Id)
    ensures Lookup(ProcessedAll(Empty(), lists, digest).centres, id) == Some(url)
       <==> exists k: nat :: LastCentre(EventsOfAll(lists), id, url, k)
  {
    var events := EventsOfAll(lists);
    forall t, e ensures CentreAt(id)(Applied(t, e, digest)) == Written(CentreAt(id)(t), CentreWrites(id)(e)) {
      CentreStep(t, e, id, digest);
    }
    FindsLastPut(CentreAt(id), CentreWrites(id), digest, lists, url);
    if k: nat :| PutLast(Project(events, CentreWrites(id)), url, k) {
      LastCentreIsPutLast(events, id, url, k);
    }
    if k: nat :| LastCentre(events, id, url, k) {
      LastCentreIsPutLast(events, id, url, k);
    }
  }

  // ---------------------------------------------------------------- certificates and authorities

  /** What an event does to a certificate: root authorities and trust list managers alike. */
  function CertificateWrite(e: Event, id: Id, root: bool, digest: Certificate -> Id): Write<Certificate> {
    match e
    case Clear => Drop
    case Run(Add(RcaEntry(c)), _) => if root && digest(c) == id then Put(c) else Keep
    case Run(Add(TlmEntry(c)), _) => if !root && digest(c) == id then Put(c) else Keep
    case Run(Delete(OfCertificate(x)), _) => if x == id then Drop else Keep
    case _ => Keep
  }

  function CertificateAt(id: Id, root: bool): Trust -> Option<Certificate> {
    (t: Trust) => Lookup(if root then t.roots else t.managers, id)
  }

  function CertificateWrites(id: Id, root: bool, digest: Certificate -> Id): Event -> Write<Certificate> {
    (e: Event) => CertificateWrite(e, id, root, digest)
  }

  lemma {:induction false} CertificateEntered(
    t: Trust, entry: Entry, signer: Id, id: Id, root: bool, digest: Certificate -> Id)
    ensures var r := Entered(t, entry, signer, digest);
            Lookup(if root then r.roots else r.managers, id)
            == Written(Lookup(if root then t.roots else t.managers, id),
                       CertificateWrite(Run(Add(entry), signer), id, root, digest))
  {
  }

  lemma {:induction false} CertificateDeleted(
    t: Trust, removal: Removal, signer: Id, id: Id, root: bool, digest: Certificate -> Id)
    ensures Lookup(if root then Deleted(t, removal).roots else Deleted(t, removal).managers, id)
         == Written(Lookup(if root then t.roots else t.managers, id),
                    CertificateWrite(Run(Delete(removal), signer), id, root, digest))
  {
  }

  lemma {:induction false} CertificateStep(t: Trust, e: Event, id: Id, root: bool, digest: Certificate -> Id)
    ensures Lookup(if root then Applied(t, e, digest).roots else Applied(t, e, digest).managers, id)
         == Written(Lookup(if root then t.roots else t.managers, id), CertificateWrite(e, id, root, digest))
  {
    match e
    case Clear =>
    case Run(Add(entry), signer) => CertificateEntered(t, entry, signer, id, root, digest);
    case Run(Delete(removal), signer) => CertificateDeleted(t, removal, signer, id, root, digest);
    case Run(OtherCommand, _) =>
  }

  /** The same for root certificates and trust list managers, under the digest of the certificate. */
  lemma {:induction false} CertificateIsLastAdded(
    lists: seq<TrustList>, id: Id, root: bool, c: Certificate, digest: Certificate -> Id)
    ensures CertificateAt(id, root)(ProcessedAll(Empty(), lists, digest)) == Some(c)
       <==> exists k: nat :: PutLast(Project(EventsOfAll(lists), CertificateWrites(id, root, digest)), c, k)
  {
    var (get, write) := (CertificateAt(id, root), CertificateWrites(id, root, digest));
    forall t, e ensures get(Applied(t, e, digest)) == Written(get(t), write(e)) {
      CertificateStep(t, e, id, root, digest);
    }
    FindsLastPut(get, write, digest, lists, c);
  }

  function AuthorizationWrite(e: Event, id: Id): Write<AuthorizationAuthority> {
    match e
    case Clear => Drop
    case Run(Add(AaEntry(point, c)), signer) => if signer == id then Put(AuthorizationAuthority(c, point)) else Keep
    case Run(Delete(OfCertificate(x)), _) => if x == id then Drop else Keep
    case _ => Keep
  }

  function AuthorizationAt(id: Id): Trust -> Option<AuthorizationAuthority> {
    (t: Trust) => Lookup(t.authorization, id)
  }

  function AuthorizationWrites(id: Id): Event -> Write<AuthorizationAuthority> {
    (e: Event) => AuthorizationWrite(e, id)
  }

  lemma {:induction false} AuthorizationEntered(t: Trust, entry: Entry, signer: Id, id: Id, digest: Certificate -> Id)
    ensures Lookup(Entered(t, entry, signer, digest).authorization, id)
         == Written(Lookup(t.authorization, id), AuthorizationWrite(Run(Add(entry), signer), id))
  {
  }

  lemma {:induction false} AuthorizationDeleted(
    t: Trust, removal: Removal, signer: Id, id: Id, digest: Certificate -> Id)
    ensures Lookup(Deleted(t, removal).authorization, id)
         == Written(Lookup(t.authorization, id), AuthorizationWrite(Run(Delete(removal), signer), id))
  {
  }

  lemma {:induction false} AuthorizationStep(t: Trust, e: Event, id: Id, digest: Certificate -> Id)
    ensures Lookup(Applied(t, e, digest).authorization, id)
         == Written(Lookup(t.authorization, id), AuthorizationWrite(e, id))
  {
    match e
    case Clear =>
    case Run(Add(entry), signer) => AuthorizationEntered(t, entry, signer, id, digest);
    case Run(Delete(removal), signer) => AuthorizationDeleted(t, removal, signer, id, digest);
    case Run(OtherCommand, _) =>
  }

  /** The same for authorization authorities, under the signer of the list. */
  lemma {:induction false} AuthorizationIsLastAdded(
    lists: seq<TrustList>, id: Id, aa: AuthorizationAuthority, digest: Certificate -> Id)
    ensures Lookup(ProcessedAll(Empty(), lists, digest).authorization, id) == Some(aa)
       <==> exists k: nat :: PutLast(Project(EventsOfAll(lists), AuthorizationWrites(id)), aa, k)
  {
    var (get, write) := (AuthorizationAt(id), AuthorizationWrites(id));
    forall t, e ensures get(Applied(t, e, digest)) == Written(get(t), write(e)) {
      AuthorizationStep(t, e, id, digest);
    }
    FindsLastPut(get, write, digest, lists, aa);
  }

  function EnrolmentWrite(e: Event, id: Id): Write<EnrolmentAuthority> {
    match e
    case Clear => Drop
    case Run(Add(EaEntry(point, its, c)), signer) =>
      var itsPoint := match its case Some(url) => url case None => "";
      if signer == id
      then Put(EnrolmentAuthority(certificate := c, aaAccessPoint := point, itsAccessPoint := itsPoint)) else Keep
    case Run(Delete(OfCertificate(x)), _) => if x == id then Drop else Keep
    case _ => Keep
  }

  function EnrolmentAt(id: Id): Trust -> Option<EnrolmentAuthority> {
    (t: Trust) => Lookup(t.enrolment, id)
  }

  function EnrolmentWrites(id: Id): Event -> Write<EnrolmentAuthority> {
    (e: Event) => EnrolmentWrite(e, id)
  }

  lemma {:induction false} EnrolmentEntered(t: Trust, entry: Entry, signer: Id, id: Id, digest: Certificate -> Id)
    ensures Lookup(Entered(t, entry, signer, digest).enrolment, id)
         == Written(Lookup(t.enrolment, id), EnrolmentWrite(Run(Add(entry), signer), id))
  {
  }

  lemma {:induction false} EnrolmentDeleted(t: Trust, removal: Removal, signer: Id, id: Id, digest: Certificate -> Id)
    ensures Lookup(Deleted(t, removal).enrolment, id)
         == Written(Lookup(t.enrolment, id), EnrolmentWrite(Run(Delete(removal), signer), id))
  {
  }

  lemma {:induction false} EnrolmentStep(t: Trust, e: Event, id: Id, digest: Certificate -> Id)
    ensures Lookup(Applied(t, e, digest).enrolment, id) == Written(Lookup(t.enrolment, id), EnrolmentWrite(e, id))
  {
    match e
    case Clear =>
    case Run(Add(entry), signer) => EnrolmentEntered(t, entry, signer, id, digest);
    case Run(Delete(removal), signer) => EnrolmentDeleted(t, removal, signer, id, digest);
    case Run(OtherCommand, _) =>
  }

  /** The same for enrolment authorities, under the signer of the list. */
  lemma {:induction false} EnrolmentIsLastAdded(
    lists: seq<TrustList>, id: Id, ea: EnrolmentAuthority, digest: Certificate -> Id)
    ensures Lookup(ProcessedAll(Empty(), lists, digest).enrolment, id) == Some(ea)
       <==> exists k: nat :: PutLast(Project(EventsOfAll(lists), EnrolmentWrites(id)), ea, k)
  {
    var (get, write) := (EnrolmentAt(id), EnrolmentWrites(id));
    forall t, e ensures get(Applied(t, e, digest)) == Written(get(t), write(e)) {
      EnrolmentStep(t, e, id, digest);
    }
    FindsLastPut(get, write, digest, lists, ea);
  }
}
