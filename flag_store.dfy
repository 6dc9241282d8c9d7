/**
 The flag store as an object: the summary table, the instance table and the
 notification log are fields that add_flag updates step by step, as the
 database rows are written one after another.

 The ghost field `history` records the add_flag calls made so far; the object
 invariant `Valid` says the tables are exactly what `Replay(history)` gives,
 so every lemma about `Replay` applies to the object.
 */
module Store {
  import opened Models
  import Spec = AddFlagSpec

  class FlagStore {
    /** The configured status choices; add_flag does not consult them. */
    const statuses: seq<(StatusCode, string)>

    var summaries: seq<FlaggedContent>
    var instances: seq<FlagInstance>
    var events: seq<ContentFlagged>

    ghost var history: seq<Spec.FlagCall>

    function State(): Spec.Db
      reads this
    {
      Spec.Db(summaries, instances, events)
    }

    ghost predicate Valid()
      reads this
    {
      Spec.WellFormed(State()) && State() == Spec.Replay(history)
    }

    /** An empty store whose status choices are `statuses`. */
    constructor (statuses: seq<(StatusCode, string)>)
      ensures Valid()
      ensures this.statuses == statuses
      ensures history == [] && summaries == [] && instances == [] && events == []
    {
      this.statuses := statuses;
      summaries, instances, events := [], [], [];
      history := [];
    }

    /** An empty store with the default status choices. */
    constructor WithDefaultStatuses()
      ensures Valid()
      ensures statuses == DefaultStatuses()
      ensures history == [] && summaries == [] && instances == [] && events == []
    {
      statuses := DefaultStatuses();
      summaries, instances, events := [], [], [];
      history := [];
    }

    // GetOrCreate, SaveIncremented, InsertInstance and SendContentFlagged are
    // the individual writes of AddFlag. Each suspends the invariant: called
    // on its own, it leaves the tables out of step with `history`, so only
    // AddFlag, which performs all of them and records the call, keeps Valid().

    /** `FlaggedContent.objects.get(pk=pk)`: the stored row, or None when there is none. */
    method Get(pk: nat) returns (r: Option<FlaggedContent>)
      ensures r.Some? <==> pk < |summaries|
      ensures r.Some? ==> r.value == summaries[pk]
    {
      if pk < |summaries| {
        r := Some(summaries[pk]);
      } else {
        r := None;
      }
    }

    /**
     `FlaggedContent.objects.get_or_create` by key: the row's primary key,
     the row, and whether it was inserted with the given defaults.
     */
    method GetOrCreate(key: ContentKey, creator: UserId, status: Option<StatusCode>)
      returns (pk: nat, fc: FlaggedContent, created: bool)
      modifies this
      ensures Spec.Got(summaries, pk, fc, created) == Spec.GetOrCreate(old(summaries), key, creator, status)
      ensures instances == old(instances) && events == old(events) && history == old(history)
    {
      var found := Spec.Find(summaries, key);
      match found {
        case Some(p) =>
          pk, fc, created := p, summaries[p], false;
        case None =>
          pk, fc, created := |summaries|, NewSummary(key, creator, status), true;
          summaries := summaries + [fc];
      }
    }

    /** `fc.count = F("count") + 1; fc.save()` on the row with primary key `pk`. */
    method SaveIncremented(pk: nat, fc: FlaggedContent)
      requires pk < |summaries|
      modifies this
      ensures summaries == Spec.SaveIncremented(old(summaries), pk, fc)
      ensures instances == old(instances) && events == old(events) && history == old(history)
    {
      var stored := summaries[pk].count;
      summaries := summaries[pk := fc.(count := stored + 1)];
    }

    /** Saves a new instance for summary `pk` and returns it. */
    method InsertInstance(pk: nat, user: UserId, when: Timestamp, comment: string)
      returns (inst: FlagInstance)
      modifies this
      ensures inst == NewInstance(pk, user, when, comment)
      ensures instances == old(instances) + [inst]
      ensures summaries == old(summaries) && events == old(events) && history == old(history)
    {
      inst := NewInstance(pk, user, when, comment);
      instances := instances + [inst];
    }

    /** Sends the "content flagged" notification. */
    method SendContentFlagged(fc: FlaggedContent, inst: FlagInstance)
      modifies this
      ensures events == old(events) + [ContentFlagged(fc, inst)]
      ensures summaries == old(summaries) && instances == old(instances) && history == old(history)
    {
      events := events + [ContentFlagged(fc, inst)];
    }

    /**
     add_flag: records that `flagger` flagged item (contentType, objectId),
     written by `contentCreator`, with `comment`, at time `now`; `status`
     overrides the initial status of a newly created summary. Returns the new
     instance. The new state is `Step` of the old one, so the lemmas of
     AddFlagSpec describe it, and the invariant is kept.
     */
    method AddFlag(flagger: UserId, contentType: ContentTypeId, objectId: nat, contentCreator: UserId,
                   comment: string, status: Option<StatusCode>, now: Timestamp)
      returns (inst: FlagInstance)
      requires Valid()
      modifies this
      ensures Valid()
      ensures history == old(history) + [Spec.FlagCall(flagger, ContentKey(contentType, objectId), contentCreator, comment, status, now)]
      ensures Spec.Outcome(State(), inst) == Spec.Step(old(State()), Spec.FlagCall(flagger, ContentKey(contentType, objectId), contentCreator, comment, status, now))
      ensures instances == old(instances) + [inst]
      ensures events == old(events) + [ContentFlagged(summaries[inst.flaggedContent], inst)]
    {
      ghost var before := State();
      ghost var call := Spec.FlagCall(flagger, ContentKey(contentType, objectId), contentCreator, comment, status, now);
      var pk, fc, created := GetOrCreate(ContentKey(contentType, objectId), contentCreator, status);
      if !created {
        SaveIncremented(pk, fc);
        // read the row back so that fc holds the stored count
        var reread := Get(pk);
        fc := reread.value;
      }
      inst := InsertInstance(pk, flagger, now, comment);
      SendContentFlagged(fc, inst);
      history := history + [call];
      assert history[..|history| - 1] == old(history);
      Spec.StepPreservesWellFormed(before, call);
    }
  }
}
