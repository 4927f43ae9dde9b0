/** The trust list processor with its five maps. */
module TrustListProcessor {
  import opened Sequences
  import opened TrustModel
  import opened TrustProofs

  class Processor {
    const digest: Certificate -> Id
    var enrolment: map<Id, EnrolmentAuthority>
    var authorization: map<Id, AuthorizationAuthority>
    var centres: map<Id, string>
    var roots: map<Id, Certificate>
    var managers: map<Id, Certificate>
    ghost var lists: seq<TrustList>

    ghost function View(): Trust
      reads this
    {
      Trust(enrolment, authorization, centres, roots, managers)
    }

    /** The state is what the lists processed so far lead to. */
    ghost predicate Valid()
      reads this
    {
      View() == ProcessedAll(Empty(), lists, digest)
    }

    constructor (digest: Certificate -> Id)
      ensures Valid() && lists == [] && this.digest == digest
    {
      this.digest := digest;
      enrolment, authorization, centres, roots, managers, lists := map[], map[], map[], map[], map[], [];
    }

    method Process(list: TrustList)
      requires Valid()
      modifies this
      ensures Valid() && lists == old(lists) + [list]
      ensures View() == Processed(old(View()), list, digest)
    {
      lists := lists + [list];
      assert lists[..|lists| - 1] == old(lists);
      if list.payload == NoPayload || list.signer == None {
        return;
      }
      if list.payload == Undecodable || list.payload.format == None {
        return;
      }
      var format := list.payload.format.value;
      ghost var runs := Runs(format.commands, list.signer.value);
      if format.full {
        enrolment, authorization, centres, roots, managers := map[], map[], map[], map[], map[];
        ClearForgets(old(View()), digest);
        AppliedSplit(old(View()), [Clear], runs, digest);
      }
      RunAll(format.commands, list.signer.value);
    }

    method RunAll(commands: seq<Command>, signer: Id)
      modifies `enrolment, `authorization, `centres, `roots, `managers
      ensures View() == AppliedAll(old(View()), Runs(commands, signer), digest)
    {
      ghost var runs := Runs(commands, signer);
      var i := 0;
      while i < |commands|
        invariant 0 <= i <= |commands|
        invariant View() == AppliedAll(old(View()), runs[..i], digest)
      {
        TakeLess(runs, i, i + 1);
        RunCommand(commands[i], signer);
        i := i + 1;
      }
      TakeAll(runs, i);
    }

    method RunCommand(command: Command, signer: Id)
      modifies `enrolment, `authorization, `centres, `roots, `managers
      ensures View() == Applied(old(View()), Run(command, signer), digest)
    {
      match command
      case Add(entry) => AddEntry(entry, signer);
      case Delete(OfCertificate(id)) => RemoveCertificate(id);
      case Delete(OfCentre(url)) => RemoveCentre(url);
      case _ =>
    }

    method AddEntry(entry: Entry, signer: Id)
      modifies `enrolment, `authorization, `centres, `roots, `managers
      ensures View() == Entered(old(View()), entry, signer, digest)
    {
      match entry
      case AaEntry(point, certificate) =>
        authorization := authorization[signer := AuthorizationAuthority(certificate, point)];
      case EaEntry(point, its, certificate) =>
        var itsPoint := "";
        if its.Some? {
          itsPoint := its.value;
        }
        enrolment := enrolment[signer := EnrolmentAuthority(certificate, point, itsPoint)];
      case DcEntry(url, certificates) => AddCentre(url, certificates);
      case RcaEntry(certificate) => roots := roots[digest(certificate) := certificate];
      case TlmEntry(certificate) => managers := managers[digest(certificate) := certificate];
      case OtherEntry =>
    }

    method AddCentre(url: string, certificates: seq<Option<Id>>)
      modifies `centres
      ensures centres == CentreAdded(old(centres), url, certificates)
    {
      var i := 0;
      while i < |certificates|
        invariant 0 <= i <= |certificates|
        invariant centres == CentreAdded(old(centres), url, certificates[..i])
      {
        TakeLess(certificates, i, i + 1);
        if certificates[i].Some? {
          centres := centres[certificates[i].value := url];
        }
        i := i + 1;
      }
      TakeAll(certificates, i);
    }

    method RemoveCertificate(id: Id)
      modifies `enrolment, `authorization, `centres, `roots, `managers
      ensures View() == Deleted(old(View()), OfCertificate(id))
    {
      enrolment := enrolment - {id};
      authorization := authorization - {id};
      centres := centres - {id};
      roots := roots - {id};
      managers := managers - {id};
    }

    /** Every entry of the map is visited once; it is erased if it has the URL. */
    method RemoveCentre(url: string)
      modifies `centres
      ensures centres == CentreRemoved(old(centres), url)
    {
      var ids := centres.Keys;
      while ids != {}
        invariant ids <= centres.Keys <= old(centres.Keys)
        invariant forall id :: id in centres ==> centres[id] == old(centres)[id]
        invariant forall id :: id in old(centres) && id !in ids ==> (id in centres <==> old(centres)[id] != url)
        decreases |ids|
      {
        var id :| id in ids;
        if centres[id] == url {
          centres := centres - {id};
        }
        ids := ids - {id};
      }
    }

    /** The centre found is the last one added for the digest that no later command has deleted. */
    method GetDistributionCentre(id: Id) returns (r: Option<string>)
      requires Valid()
      ensures forall url :: r == Some(url) <==> exists k: nat :: LastCentre(EventsOfAll(lists), id, url, k)
    {
      r := if id in centres then Some(centres[id]) else None;
      forall url ensures r == Some(url) <==> exists k: nat :: LastCentre(EventsOfAll(lists), id, url, k) {
        CentreIsLastAdded(lists, id, url, digest);
      }
    }
  }
}
