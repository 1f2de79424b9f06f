/**
 * The in-memory store of recognised people: records keyed by an integer id
 * handed out from a counter, in insertion order. The clock and the raw
 * similarity between two face encodings come from outside.
 */
module Persons {
  import opened Wrappers
  import opened OrderedMap

  type PersonId = int

  /** A face feature vector; its arithmetic is not modelled. */
  type Encoding = seq<real>

  datatype Person = Person(
    id: PersonId,
    name: string,
    faceEncoding: Option<Encoding>,
    faceImage: string,
    firstSeen: real,
    lastSeen: real,
    seenCount: int)

  /** The default match threshold. */
  const DefaultThreshold: real := 0.5

  /** Similarities are clipped into [0, 1] before they are compared. */
  function Clamp(x: real): (r: real)
    ensures 0.0 <= r <= 1.0
    ensures 0.0 <= x <= 1.0 ==> r == x
    ensures x < 0.0 ==> r == 0.0
    ensures x > 1.0 ==> r == 1.0
  {
    if x < 0.0 then 0.0 else if x > 1.0 then 1.0 else x
  }

  /** Whether a record takes part in matching: it must carry an encoding. */
  predicate HasEncoding(p: Person) {
    p.faceEncoding.Some?
  }

  /** The clipped similarity of a record to the query encoding. */
  function Score(similarity: (Encoding, Encoding) -> real, query: Encoding, p: Person): (r: real)
    requires HasEncoding(p)
    ensures 0.0 <= r <= 1.0
  {
    Clamp(similarity(query, p.faceEncoding.value))
  }

  /** A match: a record with an encoding whose score is positive and reaches the threshold. */
  predicate Acceptable(similarity: (Encoding, Encoding) -> real, query: Encoding, threshold: real, p: Person) {
    HasEncoding(p) && Score(similarity, query, p) > 0.0 && Score(similarity, query, p) >= threshold
  }

  /** Some record of the store is a match for the query. */
  predicate HasMatch(entries: map<PersonId, Person>, similarity: (Encoding, Encoding) -> real, query: Encoding,
                     threshold: real) {
    exists id :: id in entries && Acceptable(similarity, query, threshold, entries[id])
  }

  /**
   * `id` is the match the search settles on: an acceptable record whose
   * score no record with an encoding beats, and no record before it in
   * insertion order reaches.
   */
  predicate IsBestMatch(persons: ODict<PersonId, Person>, similarity: (Encoding, Encoding) -> real, query: Encoding,
                        threshold: real, id: PersonId) {
    && id in persons.entries && Acceptable(similarity, query, threshold, persons.entries[id])
    && (forall other :: other in persons.entries && HasEncoding(persons.entries[other]) ==>
          Score(similarity, query, persons.entries[other]) <= Score(similarity, query, persons.entries[id]))
    && (exists i :: 0 <= i < |persons.keys| && persons.keys[i] == id &&
          forall j :: 0 <= j < i && persons.keys[j] in persons.entries && HasEncoding(persons.entries[persons.keys[j]]) ==>
            Score(similarity, query, persons.entries[persons.keys[j]]) < Score(similarity, query, persons.entries[id]))
  }

  /** The record as `update_person` leaves it. */
  function Updated(p: Person, lastSeen: real, faceImage: Option<string>): (r: Person)
    ensures r.seenCount == p.seenCount + 1 && r.lastSeen == lastSeen
    ensures r.faceImage == (if faceImage.Some? && faceImage.value != "" then faceImage.value else p.faceImage)
    ensures r.id == p.id && r.name == p.name && r.faceEncoding == p.faceEncoding && r.firstSeen == p.firstSeen
  {
    var image := if faceImage.Some? && faceImage.value != "" then faceImage.value else p.faceImage;
    p.(lastSeen := lastSeen, seenCount := p.seenCount + 1, faceImage := image)
  }

  class PersonDatabase {
    /** Records by id, in insertion order. */
    var persons: ODict<PersonId, Person>
    /** The next id to hand out. */
    var nextId: int

    /** Every record sits under its own id below the counter, and has been seen at least once. */
    ghost predicate Valid()
      reads this
    {
      && persons.Valid()
      && (forall id :: id in persons.entries ==>
            id < nextId && persons.entries[id].id == id && persons.entries[id].seenCount >= 1)
    }

    constructor ()
      ensures Valid() && persons == Empty() && nextId == 1
    {
      persons := Empty();
      nextId := 1;
    }

    /**
     * Hands out the current counter value as the new id and increments the
     * counter by one, so ids are never reused. The new record has been seen
     * once, now.
     */
    method AddPerson(name: string, faceEncoding: Option<Encoding>, faceImage: string, now: real)
      returns (personId: PersonId)
      requires Valid()
      modifies this
      ensures Valid()
      ensures personId == old(nextId) && nextId == old(nextId) + 1
      ensures personId !in old(persons.entries)
      ensures persons == old(persons).Put(personId, Person(personId, name, faceEncoding, faceImage, now, now, 1))
    {
      personId := nextId;
      nextId := nextId + 1;
      persons := persons.Put(personId, Person(personId, name, faceEncoding, faceImage, now, now, 1));
    }

    /**
     * An unknown id changes nothing. Otherwise the record is seen once more,
     * at `lastSeen` (now when absent), and takes the new image if one is given.
     */
    method UpdatePerson(personId: PersonId, now: real, lastSeen: Option<real> := None, faceImage: Option<string> := None)
      requires Valid()
      modifies this
      ensures Valid() && nextId == old(nextId)
      ensures personId !in old(persons.entries) ==> persons == old(persons)
      ensures personId in old(persons.entries) ==>
        persons == old(persons).Put(personId, Updated(old(persons.entries)[personId], lastSeen.GetOr(now), faceImage))
      ensures persons.keys == old(persons.keys)
    {
      if personId !in persons.entries {
        return;
      }
      var person := persons.entries[personId];
      persons := persons.Put(personId, Updated(person, lastSeen.GetOr(now), faceImage));
    }

    /** The stored record, or nothing. */
    function GetPerson(personId: PersonId): (r: Option<Person>)
      reads this
      ensures r.Some? <==> personId in persons.entries
      ensures r.Some? ==> r.value == persons.entries[personId]
    {
      persons.Get(personId)
    }

    function GetAllPersons(): (r: map<PersonId, Person>)
      reads this
      ensures forall id :: id in r <==> GetPerson(id).Some?
      ensures forall id :: id in r ==> GetPerson(id) == Some(r[id])
    {
      persons.entries
    }

    /**
     * Scans the records in insertion order, skipping those without an
     * encoding, and keeps the first one with the strictly highest score above
     * zero; that one is returned only if its score reaches the threshold.
     */
    method FindSimilarPerson(faceEncoding: Encoding, similarity: (Encoding, Encoding) -> real,
                             threshold: real := DefaultThreshold)
      returns (r: Option<PersonId>)
      requires Valid()
      ensures persons.keys == [] ==> r.None?
      ensures r.Some? ==> IsBestMatch(persons, similarity, faceEncoding, threshold, r.value)
      ensures r.None? <==> !HasMatch(persons.entries, similarity, faceEncoding, threshold)
    {
      if persons.keys == [] {
        return None;
      }
      var keys := persons.keys;
      var maxSimilarity := 0.0;
      var mostSimilar: Option<PersonId> := None;
      var best := 0;
      for i := 0 to |keys|
        invariant 0.0 <= maxSimilarity
        invariant mostSimilar.None? ==> maxSimilarity == 0.0
        invariant mostSimilar.Some? ==> && 0 <= best < i && keys[best] == mostSimilar.value
                                        && HasEncoding(persons.entries[keys[best]])
                                        && maxSimilarity == Score(similarity, faceEncoding, persons.entries[keys[best]])
                                        && maxSimilarity > 0.0
        invariant forall j :: 0 <= j < i && HasEncoding(persons.entries[keys[j]]) ==>
          Score(similarity, faceEncoding, persons.entries[keys[j]]) <= maxSimilarity
        invariant mostSimilar.Some? ==> forall j :: 0 <= j < best && HasEncoding(persons.entries[keys[j]]) ==>
          Score(similarity, faceEncoding, persons.entries[keys[j]]) < maxSimilarity
      {
        var person := persons.entries[keys[i]];
        if !HasEncoding(person) {
          continue;
        }
        var score := Score(similarity, faceEncoding, person);
        if score > maxSimilarity {
          maxSimilarity := score;
          mostSimilar := Some(keys[i]);
          best := i;
        }
      }
      assert forall id :: id in persons.entries && HasEncoding(persons.entries[id]) ==>
        Score(similarity, faceEncoding, persons.entries[id]) <= maxSimilarity by {
        forall id | id in persons.entries && HasEncoding(persons.entries[id])
          ensures Score(similarity, faceEncoding, persons.entries[id]) <= maxSimilarity
        {
          var j :| 0 <= j < |keys| && keys[j] == id;
        }
      }
      if maxSimilarity >= threshold && mostSimilar.Some? {
        return mostSimilar;
      }
      return None;
    }
  }
}
