/**
 * `useOfflineFeedings`: the bridge that lets the pages keep using the
 * shared feedings array while the data lives in the offline store. Every
 * change is validated, written to the store (which queues it for sync)
 * and then mirrored in the array.
 */
module OfflineFeedings {
  import opened Wrappers
  import opened Seqs
  import opened Text
  import opened Schema
  import opened OfflineData
  import opened FeedingList

  /** The form data of an add or an edit. */
  datatype FeedingData = FeedingData(feedingTime: TimeText, foodType: Option<string>, notes: Option<string>)

  /** A stored record as the pages expect it: its client id doubles as `id`, and `created_at` is its `updated_at`. */
  function Format(r: LocalRecord): (f: Feeding)
    ensures f.id == r.clientId && f.clientId == Some(r.clientId)
    ensures f.createdAt == r.updatedAt && f.updatedAt == r.updatedAt
    ensures f.feedingTime == r.feedingTime && f.foodType == r.foodType && f.notes == r.notes
  {
    Feeding(r.clientId, Some(r.clientId), r.feedingTime, r.foodType, r.notes, r.updatedAt, r.updatedAt)
  }

  /** The message of the error thrown for invalid form data. */
  function ValidationMessage(data: FeedingData): string {
    Join(Validate(data.feedingTime).errors, ", ")
  }

  /** The error thrown for invalid form data is the one validation error there is. */
  lemma ValidationMessageFacts(data: FeedingData)
    ensures data.feedingTime.Missing? ==> ValidationMessage(data) == "Feeding time is required"
    ensures data.feedingTime.Unparseable? ==> ValidationMessage(data) == "Invalid feeding time format"
    ensures data.feedingTime.At? ==> ValidationMessage(data) == ""
  {
  }

  /** `loadFeedings` formats the stored records one for one, in the store's order. */
  lemma LoadedFacts(records: seq<LocalRecord>)
    ensures var loaded := Image(Listing(records, None), Format);
      && |loaded| == |records|
      && (forall i :: 0 <= i < |loaded| ==> loaded[i] == Format(Listing(records, None)[i]))
      && (forall r :: r in records ==> Format(r) in loaded)
      && (forall i, j :: 0 <= i < j < |loaded| ==> loaded[i].feedingTime >= loaded[j].feedingTime)
  {
    var listed := Listing(records, None);
    ListingFacts(records, None);
    assert |listed| == |records| by {
      assert |multiset(listed)| == |multiset(records)|;
    }
    forall r | r in records
      ensures Format(r) in Image(listed, Format)
    {
      var i :| 0 <= i < |listed| && listed[i] == r;
      assert Image(listed, Format)[i] == Format(r);
    }
  }

  class OfflineFeedings {
    const store: LocalStore
    const list: FeedingList
    var error: Option<string>
    var isLoading: bool

    predicate Valid()
      reads this, store
    {
      store.Valid()
    }

    /** The bridge over a store and the shared array. */
    constructor (store: LocalStore, list: FeedingList)
      requires store.Valid()
      ensures Valid() && this.store == store && this.list == list && error == None && !isLoading
    {
      this.store := store;
      this.list := list;
      error := None;
      isLoading := false;
    }

    /** `loadFeedings`: the array replaced by the formatted records, latest feeding first. */
    method LoadFeedings() returns (loaded: seq<Feeding>)
      requires Valid()
      modifies this, list
      ensures Valid() && !isLoading && error == None
      ensures loaded == Image(Listing(store.records, None), Format) && list.feedings == loaded
    {
      isLoading := true;
      error := None;
      loaded := Image(Listing(store.records, None), Format);
      list.Set(loaded);
      isLoading := false;
    }

    /**
     * `addFeeding`: invalid data is refused with the validation errors
     * joined by ", " and nothing changed; otherwise the record is created
     * with client id `clientId` and its formatted form goes to the front.
     */
    method AddFeeding(data: FeedingData, clientId: Uuid, now: Time) returns (result: Result<Feeding, string>)
      requires Valid() && FindRecord(store.records, clientId).None?
      modifies this, store, list
      ensures Valid()
      ensures !data.feedingTime.At? ==>
        && result == Err(ValidationMessage(data)) && error == Some(ValidationMessage(data))
        && store.records == old(store.records) && store.queue == old(store.queue)
        && list.feedings == old(list.feedings)
        && store.nextRecordKey == old(store.nextRecordKey) && store.nextQueueKey == old(store.nextQueueKey)
      ensures data.feedingTime.At? ==>
        var record := LocalRecord(old(store.nextRecordKey), clientId, data.feedingTime.instant,
                                  data.foodType.GetOr(""), data.notes.GetOr(""), now);
        && result == Ok(Format(record))
        && store.records == old(store.records) + [record]
        && store.queue == old(store.queue) + [QueueEntry(old(store.nextQueueKey), clientId, Create, RecordPayload(record), now, 0)]
        && list.feedings == [Format(record)] + old(list.feedings)
        && error == old(error)
        && store.nextRecordKey == old(store.nextRecordKey) + 1 && store.nextQueueKey == old(store.nextQueueKey) + 1
      ensures store.conflicts == old(store.conflicts) && isLoading == old(isLoading)
    {
      var validation := Validate(data.feedingTime);
      if !validation.isValid {
        error := Some(Join(validation.errors, ", "));
        return Err(Join(validation.errors, ", "));
      }
      var record := store.CreateRecord(NewFeeding(Some(data.feedingTime.instant), data.foodType, data.notes), clientId, now);
      var formatted := Format(record);
      list.Add(formatted);
      result := Ok(formatted);
    }

    /**
     * `updateFeeding`: invalid data or an unknown id is refused with nothing
     * changed; otherwise the stored record takes the data and the array's
     * element with that id is replaced and the array re-sorted newest first.
     */
    method UpdateFeeding(id: Uuid, data: FeedingData, now: Time) returns (result: Result<Feeding, string>)
      requires Valid()
      modifies this, store, list
      ensures Valid()
      ensures !data.feedingTime.At? ==>
        && result == Err(ValidationMessage(data)) && error == Some(ValidationMessage(data))
        && store.records == old(store.records) && store.queue == old(store.queue)
        && list.feedings == old(list.feedings)
      ensures data.feedingTime.At? && FindRecord(old(store.records), id).None? ==>
        && result == Err(NotFound) && error == Some(NotFound)
        && store.records == old(store.records) && store.queue == old(store.queue)
        && list.feedings == old(list.feedings)
        && store.nextQueueKey == old(store.nextQueueKey)
      ensures data.feedingTime.At? && FindRecord(old(store.records), id).Some? ==>
        var updated := Overlay(FindRecord(old(store.records), id).value, Patch(Some(data.feedingTime.instant), data.foodType, data.notes), now);
        && result == Ok(Format(updated))
        && store.records == Modified(old(store.records), id, updated)
        && store.queue == old(store.queue) + [QueueEntry(old(store.nextQueueKey), id, Update, RecordPayload(updated), now, 0)]
        && list.feedings == Replaced(old(list.feedings), Format(updated))
        && error == old(error)
        && store.nextQueueKey == old(store.nextQueueKey) + 1
      ensures !data.feedingTime.At? ==> store.nextQueueKey == old(store.nextQueueKey)
      ensures store.conflicts == old(store.conflicts) && store.nextRecordKey == old(store.nextRecordKey)
      ensures isLoading == old(isLoading)
    {
      var validation := Validate(data.feedingTime);
      if !validation.isValid {
        error := Some(Join(validation.errors, ", "));
        return Err(Join(validation.errors, ", "));
      }
      var stored := store.UpdateRecord(id, Patch(Some(data.feedingTime.instant), data.foodType, data.notes), now);
      if stored.Err? {
        error := Some(stored.error);
        return Err(stored.error);
      }
      var formatted := Format(stored.value);
      list.Update(formatted);
      result := Ok(formatted);
    }

    /** `removeFeeding`: an unknown id is refused with nothing changed; otherwise the record and every element with that id go. */
    method RemoveFeeding(id: Uuid, now: Time) returns (result: Result<bool, string>)
      requires Valid()
      modifies this, store, list
      ensures Valid()
      ensures FindRecord(old(store.records), id).None? ==>
        && result == Err(NotFound) && error == Some(NotFound)
        && store.records == old(store.records) && store.queue == old(store.queue)
        && list.feedings == old(list.feedings)
        && store.nextQueueKey == old(store.nextQueueKey)
      ensures FindRecord(old(store.records), id).Some? ==>
        && result == Ok(true)
        && store.records == Deleted(old(store.records), id)
        && store.queue == old(store.queue) + [QueueEntry(old(store.nextQueueKey), id, Delete, ClientIdPayload(id), now, 0)]
        && list.feedings == Without(old(list.feedings), id)
        && error == old(error)
        && store.nextQueueKey == old(store.nextQueueKey) + 1
      ensures store.conflicts == old(store.conflicts) && store.nextRecordKey == old(store.nextRecordKey)
      ensures isLoading == old(isLoading)
    {
      var deleted := store.DeleteRecord(id, now);
      if deleted.Err? {
        error := Some(deleted.error);
        return Err(deleted.error);
      }
      list.Remove(id);
      result := Ok(true);
    }

    /** `setFeedings`. */
    method SetFeedings(newFeedings: seq<Feeding>)
      modifies list
      ensures list.feedings == newFeedings
    {
      list.Set(newFeedings);
    }

    /** `quickSave`: a feeding at the clock reading `now`, food type and notes defaulting to "". */
    method QuickSave(foodType: Option<string>, notes: Option<string>, clientId: Uuid, now: Time) returns (result: Result<Feeding, string>)
      requires Valid() && FindRecord(store.records, clientId).None?
      modifies this, store, list
      ensures Valid()
      ensures var record := LocalRecord(old(store.nextRecordKey), clientId, now, foodType.GetOr(""), notes.GetOr(""), now);
        && result == Ok(Format(record))
        && store.records == old(store.records) + [record]
        && store.queue == old(store.queue) + [QueueEntry(old(store.nextQueueKey), clientId, Create, RecordPayload(record), now, 0)]
        && list.feedings == [Format(record)] + old(list.feedings)
        && error == old(error)
      ensures store.nextRecordKey == old(store.nextRecordKey) + 1 && store.nextQueueKey == old(store.nextQueueKey) + 1
      ensures store.conflicts == old(store.conflicts) && isLoading == old(isLoading)
    {
      result := AddFeeding(FeedingData(At(now), Some(foodType.GetOr("")), Some(notes.GetOr(""))), clientId, now);
    }

    /** `saveWithFood`: `quickSave` with the food type given. */
    method SaveWithFood(foodType: string, notes: Option<string>, clientId: Uuid, now: Time) returns (result: Result<Feeding, string>)
      requires Valid() && FindRecord(store.records, clientId).None?
      modifies this, store, list
      ensures Valid()
      ensures var record := LocalRecord(old(store.nextRecordKey), clientId, now, foodType, notes.GetOr(""), now);
        && result == Ok(Format(record))
        && store.records == old(store.records) + [record]
        && store.queue == old(store.queue) + [QueueEntry(old(store.nextQueueKey), clientId, Create, RecordPayload(record), now, 0)]
        && list.feedings == [Format(record)] + old(list.feedings)
        && error == old(error)
      ensures store.nextRecordKey == old(store.nextRecordKey) + 1 && store.nextQueueKey == old(store.nextQueueKey) + 1
      ensures store.conflicts == old(store.conflicts) && isLoading == old(isLoading)
    {
      result := QuickSave(Some(foodType), notes, clientId, now);
    }
  }
}
