/**
 * The quality-survey rules of QualityServiceImpl: when a report-access
 * e-mail trigger fires over the rubric ratings of a data collection, who
 * receives the report mails, the status change that sends them, the status
 * sweeps, reconciling a collection's organisation relations, creating
 * participations only once, and the deletion vetoes.
 *
 * The DAOs become the fields of one QualityStore object; mail sending is
 * recorded as a list of sent mails instead of being performed.
 */
module QualityService {
  import opened Common

  /** QualityDataCollectionStatus. */
  datatype DataCollectionStatus = Preparation | Ready | Running | Finished

  /** QualityReportAccess.EmailTrigger: never, insufficient,
      insufficientNeutral, always. */
  datatype EmailTrigger = Never | OnInsufficient | OnInsufficientNeutral | Always

  /** RubricRating, the rating of a rubric's total statistic. */
  datatype RubricRating = Sufficient | Neutral | Insufficient | NotRated

  /** One rating makes the trigger fire: NEUTRAL for insufficientNeutral,
      INSUFFICIENT for insufficientNeutral and insufficient. A null rating
      never does. */
  predicate RatingTriggers(rating: Option<RubricRating>, trigger: EmailTrigger)
  {
    (rating == Some(Neutral) && trigger == OnInsufficientNeutral)
    || (rating == Some(Insufficient) && (trigger == OnInsufficientNeutral || trigger == OnInsufficient))
  }

  /** The trigger fires for these ratings. */
  predicate Fires(ratings: seq<Option<RubricRating>>, trigger: EmailTrigger)
  {
    trigger == Always || exists i :: 0 <= i < |ratings| && RatingTriggers(ratings[i], trigger)
  }

  /** containsTrigger: the scan over the rubric ratings, returning as soon as
      one of them makes the trigger fire. */
  method ContainsTrigger(ratings: seq<Option<RubricRating>>, trigger: EmailTrigger) returns (r: bool)
    ensures r == Fires(ratings, trigger)
    ensures trigger == Always ==> r
    ensures trigger == Never ==> !r
    ensures trigger == OnInsufficientNeutral ==>
      (r <==> exists i :: 0 <= i < |ratings| && (ratings[i] == Some(Neutral) || ratings[i] == Some(Insufficient)))
    ensures trigger == OnInsufficient ==>
      (r <==> exists i :: 0 <= i < |ratings| && ratings[i] == Some(Insufficient))
    ensures ratings == [] ==> (r <==> trigger == Always)
  {
    if trigger == Always {
      return true;
    }
    for i := 0 to |ratings|
      invariant forall j :: 0 <= j < i ==> !RatingTriggers(ratings[j], trigger)
    {
      var rating := ratings[i];
      if rating == Some(Neutral) && trigger == OnInsufficientNeutral {
        return true;
      }
      if rating == Some(Insufficient) && (trigger == OnInsufficientNeutral || trigger == OnInsufficient) {
        return true;
      }
    }
    return false;
  }

  /** A report access: its e-mail trigger and the identities that
      reportAccessDao.loadReceivers returns for it. */
  datatype ReportAccess = ReportAccess(emailTrigger: EmailTrigger, receivers: seq<nat>)

  /** The receivers gathered over the report accesses, in list order. */
  function ReceiversOf(ratings: seq<Option<RubricRating>>, accesses: seq<ReportAccess>): set<nat>
  {
    if accesses == [] then {}
    else
      var last := accesses[|accesses| - 1];
      ReceiversOf(ratings, accesses[..|accesses| - 1])
      + (if Fires(ratings, last.emailTrigger) then Elements(last.receivers) else {})
  }

  /** An identity receives the report mail iff it is a receiver of some
      report access whose trigger fires. */
  lemma {:induction false} ReceiversAreUnion(ratings: seq<Option<RubricRating>>, accesses: seq<ReportAccess>, x: nat)
    ensures x in ReceiversOf(ratings, accesses) <==>
      exists i :: 0 <= i < |accesses| && Fires(ratings, accesses[i].emailTrigger) && x in accesses[i].receivers
  {
    if accesses != [] {
      var init := accesses[..|accesses| - 1];
      ReceiversAreUnion(ratings, init, x);
      if x in ReceiversOf(ratings, init) {
        var i :| 0 <= i < |init| && Fires(ratings, init[i].emailTrigger) && x in init[i].receivers;
        assert accesses[i] == init[i];
      }
      if exists i :: 0 <= i < |accesses| && Fires(ratings, accesses[i].emailTrigger) && x in accesses[i].receivers {
        var i :| 0 <= i < |accesses| && Fires(ratings, accesses[i].emailTrigger) && x in accesses[i].receivers;
        if i < |init| {
          assert init[i] == accesses[i];
        }
      }
    }
  }

  /** The receivers loop of sendReportAccessMails. */
  method CollectReceivers(ratings: seq<Option<RubricRating>>, accesses: seq<ReportAccess>) returns (receivers: set<nat>)
    ensures receivers == ReceiversOf(ratings, accesses)
  {
    receivers := {};
    for i := 0 to |accesses|
      invariant receivers == ReceiversOf(ratings, accesses[..i])
    {
      assert accesses[..i + 1][..i] == accesses[..i];
      var fires := ContainsTrigger(ratings, accesses[i].emailTrigger);
      if fires {
        receivers := receivers + Elements(accesses[i].receivers);
      }
    }
    assert accesses[..|accesses|] == accesses;
  }

  /** A report mail handed to the mailer: the data collection and its
      receivers. */
  datatype ReportMail = ReportMail(dataCollection: nat, receivers: set<nat>)

  /** A relation between a data collection and an organisation. */
  datatype OrganisationRelation = OrganisationRelation(key: nat, dataCollection: nat, organisation: nat)

  /** Whatever a data collection, a context or a curriculum relation can
      point at. */
  datatype Target = OfOrganisation(organisation: nat) | OfCurriculum(curriculum: nat)
                  | OfCurriculumElement(element: nat)

  /** The relations of one data collection. */
  function RelationsOf(relations: set<OrganisationRelation>, dataCollection: nat): set<OrganisationRelation>
  {
    set r | r in relations && r.dataCollection == dataCollection
  }

  /** The collection's relations to organisations that are not listed: the
      ones the first loop of updateDataCollectionOrganisations deletes. */
  function Obsolete(relations: set<OrganisationRelation>, dataCollection: nat, organisations: seq<nat>)
    : set<OrganisationRelation>
  {
    set r | r in relations && r.dataCollection == dataCollection && r.organisation !in organisations
  }

  /** The listed organisations the collection already has a relation to:
      `currentOrganisationsByRelations` after the first loop. */
  function KeptOrganisations(relations: set<OrganisationRelation>, dataCollection: nat, organisations: seq<nat>)
    : set<nat>
  {
    set r | r in relations && r.dataCollection == dataCollection && r.organisation in organisations :: r.organisation
  }

  /** How many entries of the list are not among the kept organisations;
      an organisation listed twice is counted twice. */
  function CountMissing(organisations: seq<nat>, kept: set<nat>): nat
  {
    if organisations == [] then 0
    else
      CountMissing(organisations[..|organisations| - 1], kept)
      + (if organisations[|organisations| - 1] in kept then 0 else 1)
  }

  /** The relations the second loop creates, keys drawn in list order from
      `key` on: one per list entry whose organisation was not kept. */
  function NewRelations(dataCollection: nat, organisations: seq<nat>, kept: set<nat>, key: nat)
    : set<OrganisationRelation>
  {
    if organisations == [] then {}
    else
      var init := organisations[..|organisations| - 1];
      var o := organisations[|organisations| - 1];
      NewRelations(dataCollection, init, kept, key)
      + (if o in kept then {} else {OrganisationRelation(key + CountMissing(init, kept), dataCollection, o)})
  }

  /** The relations after updateDataCollectionOrganisations. */
  function Reconciled(relations: set<OrganisationRelation>, dataCollection: nat, organisations: seq<nat>, key: nat)
    : set<OrganisationRelation>
  {
    (relations - Obsolete(relations, dataCollection, organisations))
    + NewRelations(dataCollection, organisations, KeptOrganisations(relations, dataCollection, organisations), key)
  }

  /** A new relation belongs to the collection, to a listed organisation that
      was not kept, and has a key from the range drawn. */
  lemma {:induction false} NewRelationsShape(dataCollection: nat, organisations: seq<nat>, kept: set<nat>, key: nat,
                                             r: OrganisationRelation)
    requires r in NewRelations(dataCollection, organisations, kept, key)
    ensures r.dataCollection == dataCollection && r.organisation in organisations && r.organisation !in kept
    ensures key <= r.key < key + CountMissing(organisations, kept)
  {
    var init := organisations[..|organisations| - 1];
    if r in NewRelations(dataCollection, init, kept, key) {
      NewRelationsShape(dataCollection, init, kept, key, r);
    }
  }

  /** Every listed organisation that was not kept gets a new relation. */
  lemma {:induction false} NewRelationsCover(dataCollection: nat, organisations: seq<nat>, kept: set<nat>, key: nat,
                                             o: nat)
    requires o in organisations && o !in kept
    ensures exists r :: r in NewRelations(dataCollection, organisations, kept, key)
                        && r.dataCollection == dataCollection && r.organisation == o
  {
    var init := organisations[..|organisations| - 1];
    if o != organisations[|organisations| - 1] {
      assert o in init;
      NewRelationsCover(dataCollection, init, kept, key, o);
    } else {
      var r := OrganisationRelation(key + CountMissing(init, kept), dataCollection, o);
      assert r in NewRelations(dataCollection, organisations, kept, key);
    }
  }

  /** Keys are drawn once per missing entry, so exactly that many relations
      are created, and none when every listed organisation is kept. */
  lemma {:induction false} NewRelationsCount(dataCollection: nat, organisations: seq<nat>, kept: set<nat>, key: nat)
    ensures |NewRelations(dataCollection, organisations, kept, key)| == CountMissing(organisations, kept)
    ensures (forall o :: o in organisations ==> o in kept) ==>
      NewRelations(dataCollection, organisations, kept, key) == {}
  {
    if organisations != [] {
      var init := organisations[..|organisations| - 1];
      var o := organisations[|organisations| - 1];
      NewRelationsCount(dataCollection, init, kept, key);
      var created := OrganisationRelation(key + CountMissing(init, kept), dataCollection, o);
      if created in NewRelations(dataCollection, init, kept, key) {
        NewRelationsShape(dataCollection, init, kept, key, created);
      }
    }
  }

  /** What updateDataCollectionOrganisations promises: other collections keep
      their relations, a relation of this collection survives iff its
      organisation is listed, every listed organisation ends up related, and
      a relation is created only for a listed organisation the collection had
      no relation to, one per list entry. */
  lemma ReconciledEffect(relations: set<OrganisationRelation>, dataCollection: nat, organisations: seq<nat>, key: nat)
    ensures var after := Reconciled(relations, dataCollection, organisations, key);
      (forall r :: r in relations && r.dataCollection != dataCollection ==> r in after)
      && (forall r :: r in relations && r.dataCollection == dataCollection ==>
            (r in after <==> r.organisation in organisations))
      && (forall o :: o in organisations ==>
            exists r :: r in after && r.dataCollection == dataCollection && r.organisation == o)
      && (forall r :: r in after && r !in relations ==>
            r.dataCollection == dataCollection && r.organisation in organisations && r.key >= key
            && !exists q :: q in relations && q.dataCollection == dataCollection && q.organisation == r.organisation)
    ensures |NewRelations(dataCollection, organisations, KeptOrganisations(relations, dataCollection, organisations), key)|
            == CountMissing(organisations, KeptOrganisations(relations, dataCollection, organisations))
  {
    var kept := KeptOrganisations(relations, dataCollection, organisations);
    var after := Reconciled(relations, dataCollection, organisations, key);
    forall r | r in relations && r.dataCollection == dataCollection && r.organisation !in organisations
      ensures r !in after
    {
      if r in NewRelations(dataCollection, organisations, kept, key) {
        NewRelationsShape(dataCollection, organisations, kept, key, r);
      }
    }
    forall o | o in organisations
      ensures exists r :: r in after && r.dataCollection == dataCollection && r.organisation == o
    {
      if o in kept {
        var q :| q in relations && q.dataCollection == dataCollection && q.organisation in organisations
                 && q.organisation == o;
        assert q in after;
      } else {
        NewRelationsCover(dataCollection, organisations, kept, key, o);
      }
    }
    forall r | r in after && r !in relations
      ensures r.dataCollection == dataCollection && r.organisation in organisations && r.key >= key
      ensures !exists q :: q in relations && q.dataCollection == dataCollection && q.organisation == r.organisation
    {
      NewRelationsShape(dataCollection, organisations, kept, key, r);
    }
    NewRelationsCount(dataCollection, organisations, kept, key);
  }

  /** Reconciling a second time with the same list changes nothing. */
  lemma ReconcileIdempotent(relations: set<OrganisationRelation>, dataCollection: nat, organisations: seq<nat>,
                            key: nat, key': nat)
    ensures var after := Reconciled(relations, dataCollection, organisations, key);
      Reconciled(after, dataCollection, organisations, key') == after
  {
    var after := Reconciled(relations, dataCollection, organisations, key);
    ReconciledEffect(relations, dataCollection, organisations, key);
    var kept' := KeptOrganisations(after, dataCollection, organisations);
    forall o | o in organisations
      ensures o in kept'
    {
      var r :| r in after && r.dataCollection == dataCollection && r.organisation == o;
      assert r.organisation in kept';
    }
    NewRelationsCount(dataCollection, organisations, kept', key');
    forall r | r in after && r.dataCollection == dataCollection
      ensures r.organisation in organisations
    {
      if r !in relations {
      }
    }
    assert Obsolete(after, dataCollection, organisations) == {};
  }

  /** The persistent state the service reads and writes. */
  class QualityStore {
    /** The status of every data collection, by key. */
    var status: map<nat, DataCollectionStatus>
    /** The rubric ratings of each data collection's finished sessions. */
    var statistics: map<nat, seq<Option<RubricRating>>>
    /** The report accesses of each data collection. */
    var reportAccesses: map<nat, seq<ReportAccess>>
    /** The report mails handed to the mailer, oldest first. */
    var reportMails: seq<ReportMail>
    /** The data-collection-to-organisation relations. */
    var organisationRelations: set<OrganisationRelation>
    var nextRelationKey: nat
    /** The participations: (survey, executor) to participation key. */
    var participations: map<(nat, nat), nat>
    var nextParticipationKey: nat
    /** What data collections, contexts and the context relations point at,
        and the curriculum elements that have contexts. */
    var dataCollectionTargets: set<Target>
    var contextTargets: set<Target>
    var elementsWithContexts: set<nat>

    constructor(status: map<nat, DataCollectionStatus>)
      ensures this.status == status
      ensures statistics == map[] && reportAccesses == map[] && reportMails == []
      ensures organisationRelations == {} && participations == map[]
      ensures dataCollectionTargets == {} && contextTargets == {} && elementsWithContexts == {}
    {
      this.status := status;
      statistics := map[];
      reportAccesses := map[];
      reportMails := [];
      organisationRelations := {};
      nextRelationKey := 0;
      participations := map[];
      nextParticipationKey := 0;
      dataCollectionTargets := {};
      contextTargets := {};
      elementsWithContexts := {};
    }

    function StatisticsOf(dataCollection: nat): seq<Option<RubricRating>>
      reads this
    {
      if dataCollection in statistics then statistics[dataCollection] else []
    }

    function ReportAccessesOf(dataCollection: nat): seq<ReportAccess>
      reads this
    {
      if dataCollection in reportAccesses then reportAccesses[dataCollection] else []
    }

    /** The mail sendReportAccessMails hands over for a data collection. */
    function ReportMailFor(dataCollection: nat): ReportMail
      reads this
    {
      ReportMail(dataCollection, ReceiversOf(StatisticsOf(dataCollection), ReportAccessesOf(dataCollection)))
    }

    /** sendReportAccessMails. */
    method SendReportAccessMails(dataCollection: nat)
      modifies this
      ensures reportMails == old(reportMails) + [old(ReportMailFor(dataCollection))]
      ensures status == old(status) && statistics == old(statistics) && reportAccesses == old(reportAccesses)
      ensures organisationRelations == old(organisationRelations) && nextRelationKey == old(nextRelationKey)
      ensures participations == old(participations) && nextParticipationKey == old(nextParticipationKey)
      ensures dataCollectionTargets == old(dataCollectionTargets) && contextTargets == old(contextTargets)
      ensures elementsWithContexts == old(elementsWithContexts)
    {
      var receivers := CollectReceivers(StatisticsOf(dataCollection), ReportAccessesOf(dataCollection));
      reportMails := reportMails + [ReportMail(dataCollection, receivers)];
    }

    /** updateDataCollectionStatus: report mails go out only when the
        collection enters FINISHED. */
    method UpdateDataCollectionStatus(dataCollection: nat, newStatus: DataCollectionStatus)
      requires dataCollection in status
      modifies this
      ensures status == old(status)[dataCollection := newStatus]
      ensures reportMails == old(reportMails)
        + (if newStatus == Finished && old(status)[dataCollection] != Finished
           then [old(ReportMailFor(dataCollection))] else [])
      ensures statistics == old(statistics) && reportAccesses == old(reportAccesses)
      ensures organisationRelations == old(organisationRelations) && nextRelationKey == old(nextRelationKey)
      ensures participations == old(participations) && nextParticipationKey == old(nextParticipationKey)
      ensures dataCollectionTargets == old(dataCollectionTargets) && contextTargets == old(contextTargets)
      ensures elementsWithContexts == old(elementsWithContexts)
    {
      var previousStatus := status[dataCollection];
      status := status[dataCollection := newStatus];
      if newStatus == Finished && previousStatus != Finished {
        SendReportAccessMails(dataCollection);
      }
    }

    /** stopDataCollections: every collection with a pending start (as the
        DAO selects them) goes to RUNNING; no report mail is sent. */
    method StopDataCollections(pendingStart: seq<nat>)
      requires forall i :: 0 <= i < |pendingStart| ==> pendingStart[i] in status
      modifies this
      ensures status.Keys == old(status).Keys
      ensures forall k :: k in status ==>
        status[k] == (if k in pendingStart then Running else old(status)[k])
      ensures reportMails == old(reportMails)
      ensures organisationRelations == old(organisationRelations) && participations == old(participations)
      ensures statistics == old(statistics) && reportAccesses == old(reportAccesses)
      ensures nextRelationKey == old(nextRelationKey) && nextParticipationKey == old(nextParticipationKey)
      ensures dataCollectionTargets == old(dataCollectionTargets) && contextTargets == old(contextTargets)
      ensures elementsWithContexts == old(elementsWithContexts)
    {
      for i := 0 to |pendingStart|
        invariant status.Keys == old(status).Keys
        invariant forall k :: k in status ==>
          status[k] == (if k in pendingStart[..i] then Running else old(status)[k])
        invariant reportMails == old(reportMails)
        invariant organisationRelations == old(organisationRelations) && participations == old(participations)
        invariant statistics == old(statistics) && reportAccesses == old(reportAccesses)
        invariant nextRelationKey == old(nextRelationKey) && nextParticipationKey == old(nextParticipationKey)
        invariant dataCollectionTargets == old(dataCollectionTargets) && contextTargets == old(contextTargets)
        invariant elementsWithContexts == old(elementsWithContexts)
      {
        UpdateDataCollectionStatus(pendingStart[i], Running);
      }
      assert pendingStart[..|pendingStart|] == pendingStart;
    }

    /** startDataCollection: every collection past its deadline (as the DAO
        selects them) goes to FINISHED; those that were not finished yet
        send their report mail, in list order. */
    method StartDataCollection(pendingDeadline: seq<nat>)
      requires forall i :: 0 <= i < |pendingDeadline| ==> pendingDeadline[i] in status
      requires Distinct(pendingDeadline)
      modifies this
      ensures status.Keys == old(status).Keys
      ensures forall k :: k in status ==>
        status[k] == (if k in pendingDeadline then Finished else old(status)[k])
      ensures reportMails == old(reportMails) + FinishMails(old(status), old(statistics), old(reportAccesses), pendingDeadline)
      ensures organisationRelations == old(organisationRelations) && participations == old(participations)
      ensures statistics == old(statistics) && reportAccesses == old(reportAccesses)
      ensures nextRelationKey == old(nextRelationKey) && nextParticipationKey == old(nextParticipationKey)
      ensures dataCollectionTargets == old(dataCollectionTargets) && contextTargets == old(contextTargets)
      ensures elementsWithContexts == old(elementsWithContexts)
    {
      for i := 0 to |pendingDeadline|
        invariant status == FinishAll(old(status), pendingDeadline[..i])
        invariant reportMails == old(reportMails)
          + FinishMails(old(status), old(statistics), old(reportAccesses), pendingDeadline[..i])
        invariant statistics == old(statistics) && reportAccesses == old(reportAccesses)
        invariant organisationRelations == old(organisationRelations) && participations == old(participations)
        invariant nextRelationKey == old(nextRelationKey) && nextParticipationKey == old(nextParticipationKey)
        invariant dataCollectionTargets == old(dataCollectionTargets) && contextTargets == old(contextTargets)
        invariant elementsWithContexts == old(elementsWithContexts)
      {
        var k := pendingDeadline[i];
        FinishAllStep(old(status), pendingDeadline, i);
        FinishMailsStep(old(status), old(statistics), old(reportAccesses), pendingDeadline, i);
        UpdateDataCollectionStatus(k, Finished);
      }
      assert pendingDeadline[..|pendingDeadline|] == pendingDeadline;
    }

    /** updateDataCollectionOrganisations: the collection's relations to
        organisations outside the list are deleted, those inside it are kept,
        and a relation is created for every list entry whose organisation had
        none before the call. The kept organisations are not updated while
        creating, so an organisation listed twice without a relation gets two.
        The source iterates a copy of a HashSet, whose order the model leaves
        open. */
    method UpdateDataCollectionOrganisations(dataCollection: nat, organisations: seq<nat>)
      modifies this
      ensures organisationRelations
        == Reconciled(old(organisationRelations), dataCollection, organisations, old(nextRelationKey))
      ensures nextRelationKey == old(nextRelationKey)
        + CountMissing(organisations, KeptOrganisations(old(organisationRelations), dataCollection, organisations))
      ensures forall r :: r in organisationRelations && r !in old(organisationRelations) ==>
        r.dataCollection == dataCollection && r.organisation in organisations
        && !exists q :: q in old(organisationRelations) && q.dataCollection == dataCollection
                        && q.organisation == r.organisation
      ensures forall o :: o in organisations ==>
        exists r :: r in organisationRelations && r.dataCollection == dataCollection && r.organisation == o
      ensures forall o :: o in organisations ==> !DeleteOrganisationData(o)
      ensures status == old(status) && reportMails == old(reportMails) && participations == old(participations)
      ensures dataCollectionTargets == old(dataCollectionTargets) && contextTargets == old(contextTargets)
      ensures elementsWithContexts == old(elementsWithContexts)
      ensures statistics == old(statistics) && reportAccesses == old(reportAccesses) && nextParticipationKey == old(nextParticipationKey)
    {
      var currentOrganisations := DeleteUnlistedRelations(dataCollection, organisations);
      ghost var kept := KeptOrganisations(old(organisationRelations), dataCollection, organisations);
      ghost var afterDeletes := organisationRelations;
      for i := 0 to |organisations|
        invariant organisationRelations
          == afterDeletes + NewRelations(dataCollection, organisations[..i], kept, old(nextRelationKey))
        invariant nextRelationKey == old(nextRelationKey) + CountMissing(organisations[..i], kept)
        invariant status == old(status) && reportMails == old(reportMails) && participations == old(participations)
        invariant dataCollectionTargets == old(dataCollectionTargets) && contextTargets == old(contextTargets)
        invariant elementsWithContexts == old(elementsWithContexts)
        invariant statistics == old(statistics) && reportAccesses == old(reportAccesses) && nextParticipationKey == old(nextParticipationKey)
      {
        var organisation := organisations[i];
        assert organisations[..i + 1][..i] == organisations[..i];
        if organisation !in currentOrganisations {
          var newRelation := OrganisationRelation(nextRelationKey, dataCollection, organisation);
          nextRelationKey := nextRelationKey + 1;
          organisationRelations := organisationRelations + {newRelation};
        }
      }
      assert organisations[..|organisations|] == organisations;
      ReconciledEffect(old(organisationRelations), dataCollection, organisations, old(nextRelationKey));
    }

    /** The first loop of updateDataCollectionOrganisations: deletes the
        collection's relations to unlisted organisations and returns the
        listed organisations it keeps a relation to. */
    method DeleteUnlistedRelations(dataCollection: nat, organisations: seq<nat>) returns (currentOrganisations: seq<nat>)
      modifies this
      ensures organisationRelations == old(organisationRelations) - Obsolete(old(organisationRelations), dataCollection, organisations)
      ensures forall o :: o in currentOrganisations <==> o in KeptOrganisations(old(organisationRelations), dataCollection, organisations)
      ensures nextRelationKey == old(nextRelationKey)
      ensures status == old(status) && reportMails == old(reportMails) && participations == old(participations)
      ensures dataCollectionTargets == old(dataCollectionTargets) && contextTargets == old(contextTargets)
      ensures elementsWithContexts == old(elementsWithContexts)
      ensures statistics == old(statistics) && reportAccesses == old(reportAccesses) && nextParticipationKey == old(nextParticipationKey)
    {
      ghost var old0 := organisationRelations;
      ghost var kept := KeptOrganisations(old0, dataCollection, organisations);
      var copyRelations := ListOfSet(RelationsOf(organisationRelations, dataCollection));
      currentOrganisations := [];
      for i := 0 to |copyRelations|
        invariant forall r :: r in organisationRelations <==>
          r in old0 && !(r in copyRelations[..i] && r.organisation !in organisations)
        invariant forall o :: o in currentOrganisations ==> o in kept
        invariant forall j :: 0 <= j < i && copyRelations[j].organisation in organisations ==>
          copyRelations[j].organisation in currentOrganisations
        invariant status == old(status) && reportMails == old(reportMails) && participations == old(participations)
        invariant nextRelationKey == old(nextRelationKey)
        invariant dataCollectionTargets == old(dataCollectionTargets) && contextTargets == old(contextTargets)
        invariant elementsWithContexts == old(elementsWithContexts)
        invariant statistics == old(statistics) && reportAccesses == old(reportAccesses) && nextParticipationKey == old(nextParticipationKey)
      {
        var relation := copyRelations[i];
        assert copyRelations[..i + 1] == copyRelations[..i] + [relation];
        assert relation in RelationsOf(old0, dataCollection);
        if relation.organisation !in organisations {
          organisationRelations := organisationRelations - {relation};
        } else {
          currentOrganisations := currentOrganisations + [relation.organisation];
        }
      }
      assert copyRelations[..|copyRelations|] == copyRelations;
      forall r | r in old0 && r.dataCollection == dataCollection
        ensures r in copyRelations
      {
        assert r in RelationsOf(old0, dataCollection);
      }
      forall o | o in kept
        ensures o in currentOrganisations
      {
        var r :| r in old0 && r.dataCollection == dataCollection && r.organisation in organisations
                 && r.organisation == o;
        assert r in copyRelations;
      }
    }

    /** addParticipations: one participation per executor, in order; an
        executor that already has one in the collection's survey keeps it. */
    method AddParticipations(survey: nat, executors: seq<nat>) returns (result: seq<nat>)
      modifies this
      ensures |result| == |executors|
      ensures forall i :: 0 <= i < |executors| ==>
        (survey, executors[i]) in participations && result[i] == participations[(survey, executors[i])]
      ensures forall k :: k in old(participations) ==> k in participations && participations[k] == old(participations)[k]
      ensures forall k :: k in participations ==> k in old(participations) || (k.0 == survey && k.1 in executors)
      ensures (forall e :: e in executors ==> (survey, e) in old(participations)) ==>
        participations == old(participations) && nextParticipationKey == old(nextParticipationKey)
      ensures status == old(status) && reportMails == old(reportMails)
      ensures organisationRelations == old(organisationRelations)
      ensures statistics == old(statistics) && reportAccesses == old(reportAccesses) && nextRelationKey == old(nextRelationKey)
      ensures dataCollectionTargets == old(dataCollectionTargets) && contextTargets == old(contextTargets)
      ensures elementsWithContexts == old(elementsWithContexts)
    {
      result := [];
      for i := 0 to |executors|
        invariant |result| == i
        invariant forall j :: 0 <= j < i ==>
          (survey, executors[j]) in participations && result[j] == participations[(survey, executors[j])]
        invariant forall k :: k in old(participations) ==> k in participations && participations[k] == old(participations)[k]
        invariant forall k :: k in participations ==> k in old(participations) || (k.0 == survey && k.1 in executors[..i])
        invariant (forall e :: e in executors ==> (survey, e) in old(participations)) ==>
          participations == old(participations) && nextParticipationKey == old(nextParticipationKey)
        invariant status == old(status) && reportMails == old(reportMails)
        invariant organisationRelations == old(organisationRelations)
        invariant statistics == old(statistics) && reportAccesses == old(reportAccesses) && nextRelationKey == old(nextRelationKey)
        invariant dataCollectionTargets == old(dataCollectionTargets) && contextTargets == old(contextTargets)
        invariant elementsWithContexts == old(elementsWithContexts)
      {
        var executor := executors[i];
        if (survey, executor) !in participations {
          participations := participations[(survey, executor) := nextParticipationKey];
          nextParticipationKey := nextParticipationKey + 1;
        }
        result := result + [participations[(survey, executor)]];
      }
      assert executors[..|executors|] == executors;
    }

    /** deleteOrganisationData: no veto iff no data collection, no context
        relation and no data-collection relation points at the organisation. */
    predicate DeleteOrganisationData(organisation: nat)
      reads this
    {
      NoOrganisationVeto(dataCollectionTargets, contextTargets, organisationRelations, organisation)
    }

    /** deleteCurriculumData. */
    predicate DeleteCurriculumData(curriculum: nat)
      reads this
    {
      OfCurriculum(curriculum) !in dataCollectionTargets && OfCurriculum(curriculum) !in contextTargets
    }

    /** deleteCurriculumElementData. */
    predicate DeleteCurriculumElementData(element: nat)
      reads this
    {
      OfCurriculumElement(element) !in dataCollectionTargets
      && OfCurriculumElement(element) !in contextTargets
      && element !in elementsWithContexts
    }
  }

  /** deleteOrganisationData over the store's values: no veto iff no data
      collection, no context relation and no data-collection relation points
      at the organisation. */
  predicate NoOrganisationVeto(dataCollectionTargets: set<Target>, contextTargets: set<Target>,
                               relations: set<OrganisationRelation>, organisation: nat)
  {
    OfOrganisation(organisation) !in dataCollectionTargets
    && OfOrganisation(organisation) !in contextTargets
    && !exists r :: r in relations && r.organisation == organisation
  }

  /** After updateDataCollectionOrganisations every listed organisation has
      a veto against its deletion; an unlisted organisation that only this
      collection was related to loses that veto, so only collections and
      contexts pointing at it can still block its deletion. */
  lemma ReconcileOrganisationVeto(dataCollectionTargets: set<Target>, contextTargets: set<Target>,
                                  relations: set<OrganisationRelation>, dataCollection: nat,
                                  organisations: seq<nat>, key: nat, organisation: nat)
    ensures var after := Reconciled(relations, dataCollection, organisations, key);
      organisation in organisations ==>
        !NoOrganisationVeto(dataCollectionTargets, contextTargets, after, organisation)
    ensures var after := Reconciled(relations, dataCollection, organisations, key);
      organisation !in organisations
      && (forall r :: r in relations && r.organisation == organisation ==> r.dataCollection == dataCollection)
      ==> (NoOrganisationVeto(dataCollectionTargets, contextTargets, after, organisation)
           <==> OfOrganisation(organisation) !in dataCollectionTargets + contextTargets)
  {
    var after := Reconciled(relations, dataCollection, organisations, key);
    var kept := KeptOrganisations(relations, dataCollection, organisations);
    ReconciledEffect(relations, dataCollection, organisations, key);
    if organisation !in organisations
       && (forall r :: r in relations && r.organisation == organisation ==> r.dataCollection == dataCollection) {
      forall r | r in after
        ensures r.organisation != organisation
      {
        if r in NewRelations(dataCollection, organisations, kept, key) {
          NewRelationsShape(dataCollection, organisations, kept, key, r);
        }
      }
    }
  }

  /** The report mails a deadline sweep sends over distinct collections:
      one for each collection that was not finished yet, in list order. */
  function FinishMails(status: map<nat, DataCollectionStatus>, statistics: map<nat, seq<Option<RubricRating>>>,
                       accesses: map<nat, seq<ReportAccess>>, keys: seq<nat>): seq<ReportMail>
  {
    if keys == [] then []
    else
      var k := keys[|keys| - 1];
      FinishMails(status, statistics, accesses, keys[..|keys| - 1])
      + (if k in status && status[k] != Finished
         then [ReportMail(k, ReceiversOf(if k in statistics then statistics[k] else [],
                                         if k in accesses then accesses[k] else []))]
         else [])
  }

  /** The statuses after a deadline sweep over `keys`. */
  function FinishAll(status: map<nat, DataCollectionStatus>, keys: seq<nat>): map<nat, DataCollectionStatus>
  {
    map k | k in status :: if k in keys then Finished else status[k]
  }

  /** One more collection of a deadline sweep: it is finished, and it was
      untouched before when the keys are distinct. */
  lemma FinishAllStep(status: map<nat, DataCollectionStatus>, keys: seq<nat>, i: nat)
    requires i < |keys| && keys[i] in status && Distinct(keys)
    ensures FinishAll(status, keys[..i + 1]) == FinishAll(status, keys[..i])[keys[i] := Finished]
    ensures FinishAll(status, keys[..i])[keys[i]] == status[keys[i]]
  {
    assert keys[..i + 1] == keys[..i] + [keys[i]];
    assert keys[i] !in keys[..i];
  }

  /** One more collection of a deadline sweep adds at most its own mail. */
  lemma FinishMailsStep(status: map<nat, DataCollectionStatus>, statistics: map<nat, seq<Option<RubricRating>>>,
                        accesses: map<nat, seq<ReportAccess>>, keys: seq<nat>, i: nat)
    requires i < |keys|
    ensures FinishMails(status, statistics, accesses, keys[..i + 1])
            == FinishMails(status, statistics, accesses, keys[..i])
               + (if keys[i] in status && status[keys[i]] != Finished
                  then [ReportMail(keys[i], ReceiversOf(if keys[i] in statistics then statistics[keys[i]] else [],
                                                        if keys[i] in accesses then accesses[keys[i]] else []))]
                  else [])
  {
    assert keys[..i + 1][..i] == keys[..i];
  }

  /** A deadline sweep mails exactly the listed collections that were not
      finished before. */
  lemma {:induction false} FinishMailsAreUnfinished(status: map<nat, DataCollectionStatus>,
      statistics: map<nat, seq<Option<RubricRating>>>, accesses: map<nat, seq<ReportAccess>>, keys: seq<nat>)
    ensures forall m :: m in FinishMails(status, statistics, accesses, keys) ==>
      m.dataCollection in keys && m.dataCollection in status && status[m.dataCollection] != Finished
    ensures forall k :: k in keys && k in status && status[k] != Finished ==>
      exists m :: m in FinishMails(status, statistics, accesses, keys) && m.dataCollection == k
  {
    if keys != [] {
      var init := keys[..|keys| - 1];
      FinishMailsAreUnfinished(status, statistics, accesses, init);
      assert keys == init + [keys[|keys| - 1]];
      var mails := FinishMails(status, statistics, accesses, keys);
      forall k | k in keys && k in status && status[k] != Finished
        ensures exists m :: m in mails && m.dataCollection == k
      {
        if k in init {
          var m :| m in FinishMails(status, statistics, accesses, init) && m.dataCollection == k;
          assert m in mails;
        } else {
          assert mails[|mails| - 1].dataCollection == k;
        }
      }
    }
  }

  /** Sweeping collections that are all finished sends no mail, so a second
      deadline sweep over the same collections sends none. */
  lemma {:induction false} NoMailsForFinished(status: map<nat, DataCollectionStatus>,
      statistics: map<nat, seq<Option<RubricRating>>>, accesses: map<nat, seq<ReportAccess>>, keys: seq<nat>)
    requires forall i :: 0 <= i < |keys| ==> keys[i] in status && status[keys[i]] == Finished
    ensures FinishMails(status, statistics, accesses, keys) == []
  {
    if keys != [] {
      NoMailsForFinished(status, statistics, accesses, keys[..|keys| - 1]);
    }
  }
}
