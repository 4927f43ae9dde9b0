/**
 * Certificate trust lists and what they do to the trust state. Digests are numbers here; the digest
 * of a certificate is a parameter.
 */
module TrustModel {
  import opened Sequences

  type Id = nat

  type Certificate = string

  datatype EnrolmentAuthority =
    EnrolmentAuthority(certificate: Certificate, aaAccessPoint: string, itsAccessPoint: string)

  datatype AuthorizationAuthority = AuthorizationAuthority(certificate: Certificate, accessPoint: string)

  /** Certificates of a distribution centre that are absent or have no digest of eight bytes are None. */
  datatype Entry =
    | AaEntry(aaPoint: string, aaCertificate: Certificate)
    | EaEntry(eaPoint: string, itsPoint: Option<string>, eaCertificate: Certificate)
    | DcEntry(url: string, certificates: seq<Option<Id>>)
    | RcaEntry(rootCertificate: Certificate)
    | TlmEntry(tlmCertificate: Certificate)
    | OtherEntry

  datatype Removal = OfCertificate(id: Id) | OfCentre(target: string) | OtherRemoval

  datatype Command = Add(entry: Entry) | Delete(removal: Removal) | OtherCommand

  datatype Format = Format(full: bool, commands: seq<Command>)

  /** Signed data: no payload at all, one that does not decode, or management data with or without a list. */
  datatype Payload = NoPayload | Undecodable | Management(format: Option<Format>)

  datatype TrustList = TrustList(payload: Payload, signer: Option<Id>)

  datatype Trust = Trust(
    enrolment: map<Id, EnrolmentAuthority>,
    authorization: map<Id, AuthorizationAuthority>,
    centres: map<Id, string>,
    roots: map<Id, Certificate>,
    managers: map<Id, Certificate>)

  function Empty(): Trust {
    Trust(map[], map[], map[], map[], map[])
  }

  function Lookup<V>(m: map<Id, V>, id: Id): Option<V> {
    if id in m then Some(m[id]) else None
  }

  // ---------------------------------------------------------------- commands

  function CentreAdded(centres: map<Id, string>, url: string, certificates: seq<Option<Id>>): map<Id, string> {
    if certificates == [] then centres
    else
      var before := CentreAdded(centres, url, certificates[..|certificates| - 1]);
      match certificates[|certificates| - 1]
      case Some(id) => before[id := url]
      case None => before
  }

  function CentreRemoved(centres: map<Id, string>, url: string): map<Id, string> {
    map id | id in centres && centres[id] != url :: centres[id]
  }

  function Authority(point: string, its: Option<string>, certificate: Certificate): EnrolmentAuthority {
    EnrolmentAuthority(certificate, point, if its.Some? then its.value else "")
  }

  function Entered(t: Trust, entry: Entry, signer: Id, digest: Certificate -> Id): Trust {
    match entry
    case AaEntry(point, certificate) =>
      t.(authorization := t.authorization[signer := AuthorizationAuthority(certificate, point)])
    case EaEntry(point, its, certificate) =>
      t.(enrolment := t.enrolment[signer := Authority(point, its, certificate)])
    case DcEntry(url, certificates) => t.(centres := CentreAdded(t.centres, url, certificates))
    case RcaEntry(certificate) => t.(roots := t.roots[digest(certificate) := certificate])
    case TlmEntry(certificate) => t.(managers := t.managers[digest(certificate) := certificate])
    case OtherEntry => t
  }

  function Deleted(t: Trust, removal: Removal): Trust {
    match removal
    case OfCertificate(id) =>
      Trust(t.enrolment - {id}, t.authorization - {id}, t.centres - {id}, t.roots - {id}, t.managers - {id})
    case OfCentre(url) => t.(centres := CentreRemoved(t.centres, url))
    case OtherRemoval => t
  }

  /** What happens to the trust state, one after the other. */
  datatype Event = Clear | Run(command: Command, signer: Id)

  function Applied(t: Trust, e: Event, digest: Certificate -> Id): Trust {
    match e
    case Clear => Empty()
    case Run(Add(entry), signer) => Entered(t, entry, signer, digest)
    case Run(Delete(removal), _) => Deleted(t, removal)
    case Run(OtherCommand, _) => t
  }

  function AppliedAll(t: Trust, events: seq<Event>, digest: Certificate -> Id): Trust {
    if events == [] then t
    else Applied(AppliedAll(t, events[..|events| - 1], digest), events[|events| - 1], digest)
  }

  // ---------------------------------------------------------------- lists

  /** The list has any effect: signed, decodable and indeed a trust list. */
  predicate Readable(list: TrustList) {
    list.signer.Some? && list.payload.Management? && list.payload.format.Some?
  }

  predicate Full(list: TrustList) {
    Readable(list) && list.payload.format.value.full
  }

  function Runs(commands: seq<Command>, signer: Id): (r: seq<Event>)
    ensures |r| == |commands|
  {
    seq(|commands|, i requires 0 <= i < |commands| => Run(commands[i], signer))
  }

  function EventsOf(list: TrustList): seq<Event> {
    if !Readable(list) then []
    else
      var runs := Runs(list.payload.format.value.commands, list.signer.value);
      if Full(list) then [Clear] + runs else runs
  }

  function EventsOfAll(lists: seq<TrustList>): seq<Event> {
    if lists == [] then [] else EventsOfAll(lists[..|lists| - 1]) + EventsOf(lists[|lists| - 1])
  }

  function Processed(t: Trust, list: TrustList, digest: Certificate -> Id): Trust {
    AppliedAll(t, EventsOf(list), digest)
  }

  function ProcessedAll(t: Trust, lists: seq<TrustList>, digest: Certificate -> Id): Trust {
    if lists == [] then t
    else Processed(ProcessedAll(t, lists[..|lists| - 1], digest), lists[|lists| - 1], digest)
  }
}
