/**
 * The vision agent's own logic: the recognition pass over the faces found in
 * one camera frame, the greeting cooldown, the relative-time wording and the
 * throttle on images sent to the brain. Face detection, encodings, drawing
 * and the camera are outside; the clock, the raw similarity and the random
 * names arrive as parameters.
 */
module Vision {
  import opened Wrappers
  import opened JsonValue
  import opened Persons
  import opened OrderedMap
  import McpProtocol

  /** Seconds between two images sent to the brain for analysis. */
  const AnalysisInterval: real := 10.0
  /** Seconds before the same person is greeted again. */
  const RecognitionCooldown: real := 600.0

  // ---------------------------------------------------------------------
  // Decimal rendering of integers, as an f-string prints them
  // ---------------------------------------------------------------------

  function DigitChar(d: nat): (c: char)
    requires d < 10
    ensures '0' <= c <= '9' && (c as int) - ('0' as int) == d
  {
    "0123456789"[d]
  }

  predicate AllDigits(s: string) {
    forall i :: 0 <= i < |s| ==> '0' <= s[i] <= '9'
  }

  /** The decimal digits of a natural number, most significant first, with no leading zero. */
  function NatToString(n: nat): (s: string)
    ensures |s| >= 1 && AllDigits(s)
    ensures n >= 10 <==> |s| > 1
    decreases n
  {
    if n < 10 then [DigitChar(n)] else NatToString(n / 10) + [DigitChar(n % 10)]
  }

  /** The value of a non-empty string of decimal digits. */
  function ParseNat(s: string): (n: nat)
    requires |s| >= 1 && AllDigits(s)
    decreases |s|
  {
    var last := (s[|s| - 1] as int) - ('0' as int);
    if |s| == 1 then last else ParseNat(s[..|s| - 1]) * 10 + last
  }

  /** Reading the digits back gives the number: the rendering loses nothing. */
  lemma {:induction false} ParseNatToString(n: nat)
    ensures ParseNat(NatToString(n)) == n
    decreases n
  {
    if n >= 10 {
      var s := NatToString(n);
      assert s[..|s| - 1] == NatToString(n / 10);
      ParseNatToString(n / 10);
    }
  }

  /** Different numbers render differently. */
  lemma NatToStringInjective(m: nat, n: nat)
    requires NatToString(m) == NatToString(n)
    ensures m == n
  {
    ParseNatToString(m);
    ParseNatToString(n);
  }

  function IntToString(i: int): (s: string)
    ensures i >= 0 ==> s == NatToString(i)
    ensures i < 0 ==> s == "-" + NatToString(-i)
  {
    if i < 0 then "-" + NatToString(-i) else NatToString(i)
  }

  // ---------------------------------------------------------------------
  // Relative time
  // ---------------------------------------------------------------------

  /** Python's `int()` on a float: truncation toward zero. */
  function Trunc(x: real): (r: int)
    ensures x >= 0.0 ==> r as real <= x < r as real + 1.0
    ensures x < 0.0 ==> r as real - 1.0 < x <= r as real
  {
    if x >= 0.0 then x.Floor else -((-x).Floor)
  }

  /** The unit and count a time difference is shown in. */
  datatype Ago = DaysAgo(n: int) | HoursAgo(n: int) | MinutesAgo(n: int) | SecondsAgo(n: int)

  /**
   * Whole seconds, then minutes, hours and days by floor division, and the
   * largest unit whose count is positive (seconds when none is).
   */
  function AgoOf(timeDiff: real): (r: Ago)
    ensures !r.SecondsAgo? ==> r.n > 0
    ensures r.SecondsAgo? ==> r.n < 60
    ensures timeDiff >= 0.0 ==> r.n >= 0
  {
    var seconds := Trunc(timeDiff);
    var minutes := seconds / 60;
    var hours := minutes / 60;
    var days := hours / 24;
    if days > 0 then DaysAgo(days)
    else if hours > 0 then HoursAgo(hours)
    else if minutes > 0 then MinutesAgo(minutes)
    else SecondsAgo(seconds)
  }

  function Render(a: Ago): (s: string) {
    match a
    case DaysAgo(n) => IntToString(n) + "天前"
    case HoursAgo(n) => IntToString(n) + "小时前"
    case MinutesAgo(n) => IntToString(n) + "分钟前"
    case SecondsAgo(n) => IntToString(n) + "秒前"
  }

  /**
   * The wording of a time difference, e.g. "3小时前": the whole number of
   * days, hours, minutes or seconds in the truncated second count, in the
   * largest unit that fits at least once.
   */
  function FormatTimeDiff(timeDiff: real): (s: string)
    ensures var n := Trunc(timeDiff);
      && (n >= 86400 ==> s == IntToString(n / 86400) + "天前")
      && (3600 <= n < 86400 ==> s == IntToString(n / 3600) + "小时前")
      && (60 <= n < 3600 ==> s == IntToString(n / 60) + "分钟前")
      && (n < 60 ==> s == IntToString(n) + "秒前")
  {
    AgoOfUnits(timeDiff);
    Render(AgoOf(timeDiff))
  }

  /** What a known face is told about its last visit: "刚刚" within a minute. */
  function TimeInfo(timeDiff: real): (s: string)
    ensures timeDiff <= 60.0 ==> s == "刚刚"
    ensures timeDiff > 60.0 ==> s == FormatTimeDiff(timeDiff)
  {
    if timeDiff > 60.0 then FormatTimeDiff(timeDiff) else "刚刚"
  }

  /** Floor division by 60 twice is floor division by 3600. */
  lemma HoursFromSeconds(s: int)
    ensures (s / 60) / 60 == s / 3600
  {
    var q := s / 60;
    assert s == 60 * q + s % 60;
    assert q == 60 * (q / 60) + q % 60;
    assert s == 3600 * (q / 60) + (60 * (q % 60) + s % 60);
  }

  /** Floor division by 3600 and then by 24 is floor division by 86400. */
  lemma DaysFromSeconds(s: int)
    ensures (s / 3600) / 24 == s / 86400
  {
    var q := s / 3600;
    assert s == 3600 * q + s % 3600;
    assert q == 24 * (q / 24) + q % 24;
    assert s == 86400 * (q / 24) + (3600 * (q % 24) + s % 3600);
  }

  /**
   * The unit is chosen by the whole-second count alone: days from 86400
   * seconds, hours from 3600, minutes from 60, and the count is the whole
   * number of that unit.
   */
  lemma {:induction false} AgoOfUnits(timeDiff: real)
    ensures var s := Trunc(timeDiff);
      && (AgoOf(timeDiff).DaysAgo? <==> s >= 86400)
      && (AgoOf(timeDiff).HoursAgo? <==> 3600 <= s < 86400)
      && (AgoOf(timeDiff).MinutesAgo? <==> 60 <= s < 3600)
      && (AgoOf(timeDiff).SecondsAgo? <==> s < 60)
      && (AgoOf(timeDiff).DaysAgo? ==> AgoOf(timeDiff).n == s / 86400)
      && (AgoOf(timeDiff).HoursAgo? ==> AgoOf(timeDiff).n == s / 3600)
      && (AgoOf(timeDiff).MinutesAgo? ==> AgoOf(timeDiff).n == s / 60)
      && (AgoOf(timeDiff).SecondsAgo? ==> AgoOf(timeDiff).n == s)
  {
    var s := Trunc(timeDiff);
    HoursFromSeconds(s);
    DaysFromSeconds(s);
    assert (s / 60) / 60 == s / 3600;
    assert ((s / 60) / 60) / 24 == s / 86400;
  }

  /** A visit more than a minute ago is never reported in seconds, and its count is positive. */
  lemma {:induction false} OverAMinuteNotSeconds(timeDiff: real)
    requires timeDiff > 60.0
    ensures !AgoOf(timeDiff).SecondsAgo? && AgoOf(timeDiff).n > 0
  {
    AgoOfUnits(timeDiff);
    var s := Trunc(timeDiff);
    assert s >= 60;
  }

  // ---------------------------------------------------------------------
  // Greeting and messages
  // ---------------------------------------------------------------------

  /** The greeting sent to the brain: a first meeting iff the person has been seen at most once. */
  function GreetingText(name: string, seenCount: int): (s: string)
    ensures seenCount <= 1 ==> s == "[视觉识别] 我看到了" + name + "。你好，" + name + "！很高兴认识你！"
    ensures seenCount > 1 ==> s == "[视觉识别] 我看到了" + name + "。你好，" + name + "！很高兴再次见到你！"
  {
    var greeting := if seenCount <= 1 then "你好，" + name + "！很高兴认识你！"
                    else "你好，" + name + "！很高兴再次见到你！";
    "[视觉识别] 我看到了" + name + "。" + greeting
  }

  /**
   * The greeting tells a first meeting from a return visit and nothing
   * more: two counts give the same text exactly when both or neither are
   * first meetings.
   */
  lemma GreetingDistinguishesFirstMeeting(name: string, m: int, n: int)
    ensures GreetingText(name, m) == GreetingText(name, n) <==> (m <= 1 <==> n <= 1)
  {
    if (m <= 1) != (n <= 1) {
      assert |GreetingText(name, m)| != |GreetingText(name, n)|;
    }
  }

  /** The frame for the web page: the annotated image, or the raw one when there is none. */
  function VisionFrame(imageBase64: string, processed: Option<string>): (d: Dict)
    ensures d.Keys == {"type", "content"} && d["type"] == Str("vision")
    ensures processed.Some? && processed.value != "" ==> d["content"] == Str(processed.value)
    ensures processed.None? || processed.value == "" ==> d["content"] == Str(imageBase64)
  {
    var shown := if processed.Some? && processed.value != "" then processed.value else imageBase64;
    map["type" := Str("vision"), "content" := Str(shown)]
  }

  /** One face found in a frame: its encoding and its cropped image. */
  datatype DetectedFace = DetectedFace(encoding: Encoding, image: string)

  /**
   * One face against the store: when some record matches, the best match
   * (first in insertion order among the best scores) is seen once more, now,
   * with the face's image; otherwise a record under the next id is added
   * with the given name and the counter moves on by one.
   */
  ghost predicate FaceStep(before: ODict<PersonId, Person>, nextBefore: int, after: ODict<PersonId, Person>, nextAfter: int,
                           face: DetectedFace, similarity: (Encoding, Encoding) -> real, now: real, newName: string,
                           personId: PersonId, name: string)
  {
    && before.Valid()
    && if HasMatch(before.entries, similarity, face.encoding, DefaultThreshold) then
         && IsBestMatch(before, similarity, face.encoding, DefaultThreshold, personId)
         && nextAfter == nextBefore && name == before.entries[personId].name
         && after == before.Put(personId, Updated(before.entries[personId], now, Some(face.image)))
       else
         && personId == nextBefore && nextAfter == nextBefore + 1 && name == newName
         && after == before.Put(personId, Person(personId, newName, Some(face.encoding), face.image, now, now, 1))
  }

  /**
   * A pass face by face: `stores` and `nexts` are the store and the counter
   * before each face and after the last, and the i-th face, taking the i-th
   * random name, is one `FaceStep` from the i-th store to the next.
   */
  ghost predicate FaceSteps(stores: seq<ODict<PersonId, Person>>, nexts: seq<int>, faces: seq<DetectedFace>,
                            ids: seq<PersonId>, names: seq<string>, now: real,
                            similarity: (Encoding, Encoding) -> real, randomName: nat -> string)
  {
    && |stores| == |nexts| == |ids| + 1 && |names| == |ids| <= |faces|
    && forall i :: 0 <= i < |ids| ==>
         FaceStep(stores[i], nexts[i], stores[i + 1], nexts[i + 1], faces[i], similarity, now, randomName(i), ids[i], names[i])
  }

  /** A pass face by face grows by one more step. */
  lemma FaceStepsExtend(stores: seq<ODict<PersonId, Person>>, nexts: seq<int>, faces: seq<DetectedFace>,
                        ids: seq<PersonId>, names: seq<string>, now: real,
                        similarity: (Encoding, Encoding) -> real, randomName: nat -> string,
                        after: ODict<PersonId, Person>, nextAfter: int, personId: PersonId, name: string)
    requires FaceSteps(stores, nexts, faces, ids, names, now, similarity, randomName) && |ids| < |faces|
    requires FaceStep(stores[|ids|], nexts[|ids|], after, nextAfter, faces[|ids|], similarity, now, randomName(|ids|),
                      personId, name)
    ensures FaceSteps(stores + [after], nexts + [nextAfter], faces, ids + [personId], names + [name], now, similarity,
                      randomName)
  {
    var stores', nexts', ids', names' := stores + [after], nexts + [nextAfter], ids + [personId], names + [name];
    forall i | 0 <= i < |ids'|
      ensures FaceStep(stores'[i], nexts'[i], stores'[i + 1], nexts'[i + 1], faces[i], similarity, now, randomName(i),
                       ids'[i], names'[i])
    {
      if i < |ids| {
        assert stores'[i] == stores[i] && stores'[i + 1] == stores[i + 1] && nexts'[i] == nexts[i];
        assert nexts'[i + 1] == nexts[i + 1] && ids'[i] == ids[i] && names'[i] == names[i];
      }
    }
  }

  /**
   * One face against a store given as a map: a stored id is seen once more,
   * now, with the face's image; otherwise the next id is added with the
   * given name and the counter moves on.
   */
  ghost predicate EntryStep(after: map<PersonId, Person>, nextAfter: int, after': map<PersonId, Person>, nextAfter': int,
                            face: DetectedFace, now: real, newName: string, personId: PersonId, name: string)
  {
    if personId in after then
      && nextAfter' == nextAfter && name == after[personId].name
      && after' == after[personId := Updated(after[personId], now, Some(face.image))]
    else
      && personId == nextAfter && nextAfter' == nextAfter + 1 && name == newName
      && after' == after[personId := Person(personId, newName, Some(face.encoding), face.image, now, now, 1)]
  }

  /** The store only grows: new records sit at or above the old counter and below the new one. */
  ghost predicate Grown(before: map<PersonId, Person>, nextBefore: int, after: map<PersonId, Person>, nextAfter: int) {
    && nextAfter >= nextBefore
    && (forall id :: id in after ==> id < nextAfter)
    && (forall id :: id in before ==> id in after && after[id].seenCount >= before[id].seenCount)
    && (forall id :: id in after && id !in before ==> nextBefore <= id)
  }

  /** Every face of the pass names a stored record, seen now, under the name reported for it. */
  ghost predicate Recognised(after: map<PersonId, Person>, ids: seq<PersonId>, names: seq<string>, now: real)
    requires |ids| == |names|
  {
    forall j :: 0 <= j < |ids| ==> ids[j] in after && after[ids[j]].name == names[j] && after[ids[j]].lastSeen == now
  }

  /** Each record has been seen once more for every time the pass met it. */
  ghost predicate SeenCounts(before: map<PersonId, Person>, after: map<PersonId, Person>, ids: seq<PersonId>) {
    forall id :: id in after ==>
      after[id].seenCount == (if id in before then before[id].seenCount else 0) + multiset(ids)[id]
  }

  /** A record keeps the (non-empty) image of the last face the pass matched to it. */
  ghost predicate LatestImages(after: map<PersonId, Person>, faces: seq<DetectedFace>, ids: seq<PersonId>)
    requires |ids| <= |faces|
  {
    forall j :: 0 <= j < |ids| && ids[j] !in ids[j + 1..] && faces[j].image != "" ==>
      ids[j] in after && after[ids[j]].faceImage == faces[j].image
  }

  /** A face first added by the pass carries its position's random name and its own encoding. */
  ghost predicate NewcomersNamed(before: map<PersonId, Person>, after: map<PersonId, Person>, faces: seq<DetectedFace>,
                                 ids: seq<PersonId>, names: seq<string>, randomName: nat -> string)
    requires |ids| == |names| <= |faces|
  {
    forall j :: 0 <= j < |ids| && ids[j] !in before && ids[j] !in ids[..j] ==>
      && names[j] == randomName(j) && ids[j] in after && after[ids[j]].faceEncoding == Some(faces[j].encoding)
  }

  /** Every id handed out was met by the pass, and a record it did not meet is as it was. */
  ghost predicate OnlyMet(before: map<PersonId, Person>, nextBefore: int, after: map<PersonId, Person>, nextAfter: int,
                          ids: seq<PersonId>)
  {
    && (forall id :: nextBefore <= id < nextAfter ==> id in ids)
    && (forall id :: id in before && id !in ids ==> id in after && after[id] == before[id])
  }

  /**
   * What a recognition pass guarantees after the faces so far (`ids`,
   * `names`), relating the store before (`before`, `nextBefore`) to the
   * store after (`after`, `nextAfter`).
   */
  ghost predicate PassSoFar(before: map<PersonId, Person>, nextBefore: int, after: map<PersonId, Person>, nextAfter: int,
                            faces: seq<DetectedFace>, ids: seq<PersonId>, names: seq<string>, now: real,
                            randomName: nat -> string)
  {
    && |ids| == |names| <= |faces|
    && Grown(before, nextBefore, after, nextAfter)
    && Recognised(after, ids, names, now)
    && SeenCounts(before, after, ids)
    && LatestImages(after, faces, ids)
    && NewcomersNamed(before, after, faces, ids, names, randomName)
    && OnlyMet(before, nextBefore, after, nextAfter, ids)
  }

  /** A face step keeps the store growing. */
  lemma GrownStep(before: map<PersonId, Person>, nextBefore: int, after: map<PersonId, Person>, nextAfter: int,
                  after': map<PersonId, Person>, nextAfter': int,
                  face: DetectedFace, now: real, newName: string, personId: PersonId, name: string)
    requires Grown(before, nextBefore, after, nextAfter)
    requires EntryStep(after, nextAfter, after', nextAfter', face, now, newName, personId, name)
    ensures Grown(before, nextBefore, after', nextAfter')
  {
  }

  /** A face step adds its person to those recognised. */
  lemma RecognisedStep(after: map<PersonId, Person>, nextAfter: int, after': map<PersonId, Person>, nextAfter': int,
                       ids: seq<PersonId>, names: seq<string>,
                       face: DetectedFace, now: real, newName: string, personId: PersonId, name: string)
    requires |ids| == |names| && Recognised(after, ids, names, now)
    requires EntryStep(after, nextAfter, after', nextAfter', face, now, newName, personId, name)
    ensures Recognised(after', ids + [personId], names + [name], now)
  {
    var ids', names' := ids + [personId], names + [name];
    forall j | 0 <= j < |ids'|
      ensures ids'[j] in after' && after'[ids'[j]].name == names'[j] && after'[ids'[j]].lastSeen == now
    {
      if j < |ids| {
        assert ids'[j] == ids[j] && names'[j] == names[j];
      }
    }
  }

  /** A face step counts one more sighting of its person. */
  lemma SeenCountsStep(before: map<PersonId, Person>, after: map<PersonId, Person>, nextAfter: int,
                       after': map<PersonId, Person>, nextAfter': int, ids: seq<PersonId>,
                       face: DetectedFace, now: real, newName: string, personId: PersonId, name: string)
    requires SeenCounts(before, after, ids)
    requires forall id :: id in before ==> id in after
    requires forall j :: 0 <= j < |ids| ==> ids[j] in after
    requires EntryStep(after, nextAfter, after', nextAfter', face, now, newName, personId, name)
    ensures SeenCounts(before, after', ids + [personId])
  {
    assert multiset(ids + [personId]) == multiset(ids) + multiset{personId};
  }

  /** A face step leaves its own image as its person's latest. */
  lemma LatestImagesStep(after: map<PersonId, Person>, nextAfter: int, after': map<PersonId, Person>, nextAfter': int,
                         faces: seq<DetectedFace>, ids: seq<PersonId>,
                         now: real, newName: string, personId: PersonId, name: string)
    requires |ids| < |faces| && LatestImages(after, faces, ids)
    requires EntryStep(after, nextAfter, after', nextAfter', faces[|ids|], now, newName, personId, name)
    ensures LatestImages(after', faces, ids + [personId])
  {
    var ids' := ids + [personId];
    forall j | 0 <= j < |ids'| && ids'[j] !in ids'[j + 1..] && faces[j].image != ""
      ensures ids'[j] in after' && after'[ids'[j]].faceImage == faces[j].image
    {
      if j < |ids| {
        assert ids'[j] == ids[j] && ids[j + 1..] + [personId] == ids'[j + 1..];
      }
    }
  }

  /** A face step that adds a person names it with its position's random name. */
  lemma NewcomersNamedStep(before: map<PersonId, Person>, after: map<PersonId, Person>, nextAfter: int,
                           after': map<PersonId, Person>, nextAfter': int,
                           faces: seq<DetectedFace>, ids: seq<PersonId>, names: seq<string>, randomName: nat -> string,
                           now: real, personId: PersonId, name: string)
    requires |ids| == |names| < |faces| && NewcomersNamed(before, after, faces, ids, names, randomName)
    requires forall j :: 0 <= j < |ids| ==> ids[j] in after
    requires forall id :: id in after && id !in before ==> id in ids
    requires EntryStep(after, nextAfter, after', nextAfter', faces[|ids|], now, randomName(|ids|), personId, name)
    ensures NewcomersNamed(before, after', faces, ids + [personId], names + [name], randomName)
  {
    var ids', names' := ids + [personId], names + [name];
    forall j | 0 <= j < |ids'| && ids'[j] !in before && ids'[j] !in ids'[..j]
      ensures names'[j] == randomName(j) && ids'[j] in after' && after'[ids'[j]].faceEncoding == Some(faces[j].encoding)
    {
      if j < |ids| {
        assert ids'[j] == ids[j] && names'[j] == names[j] && ids'[..j] == ids[..j];
      } else {
        assert ids'[..j] == ids;
        assert personId !in after;
      }
    }
  }

  /** A face step changes only the person it meets. */
  lemma OnlyMetStep(before: map<PersonId, Person>, nextBefore: int, after: map<PersonId, Person>, nextAfter: int,
                    after': map<PersonId, Person>, nextAfter': int, ids: seq<PersonId>,
                    face: DetectedFace, now: real, newName: string, personId: PersonId, name: string)
    requires OnlyMet(before, nextBefore, after, nextAfter, ids)
    requires EntryStep(after, nextAfter, after', nextAfter', face, now, newName, personId, name)
    ensures OnlyMet(before, nextBefore, after', nextAfter', ids + [personId])
  {
    var ids' := ids + [personId];
    forall id | nextBefore <= id < nextAfter'
      ensures id in ids'
    {
      if id < nextAfter {
        assert id in ids;
      } else {
        assert ids'[|ids|] == personId;
      }
    }
  }

  /** A pass over no faces leaves the store as it was. */
  lemma PassSoFarEmpty(before: map<PersonId, Person>, nextBefore: int, faces: seq<DetectedFace>, now: real,
                       randomName: nat -> string)
    requires forall id :: id in before ==> id < nextBefore
    ensures PassSoFar(before, nextBefore, before, nextBefore, faces, [], [], now, randomName)
  {
  }

  /**
   * The count the first face is greeted with: a stored person (seen at
   * least once before) has been seen at least twice; a newcomer met once
   * in the pass exactly once.
   */
  lemma FirstFaceCount(before: map<PersonId, Person>, after: map<PersonId, Person>, ids: seq<PersonId>)
    requires SeenCounts(before, after, ids)
    requires forall id :: id in before ==> before[id].seenCount >= 1
    requires ids != [] && ids[0] in after
    ensures ids[0] in before ==> after[ids[0]].seenCount >= 2
    ensures ids[0] !in before && ids[0] !in ids[1..] ==> after[ids[0]].seenCount == 1
  {
    var id := ids[0];
    assert ids == [id] + ids[1..];
    assert multiset(ids)[id] == 1 + multiset(ids[1..])[id];
    assert after[id].seenCount == (if id in before then before[id].seenCount else 0) + multiset(ids)[id];
    if id !in ids[1..] {
      assert multiset(ids[1..])[id] == 0;
    }
  }

  /** One more face, matched or added as `RecognizeFace` does, keeps the pass guarantee. */
  lemma PassStep(before: map<PersonId, Person>, nextBefore: int,
                 after: map<PersonId, Person>, nextAfter: int,
                 after': map<PersonId, Person>, nextAfter': int,
                 faces: seq<DetectedFace>, ids: seq<PersonId>, names: seq<string>, now: real,
                 randomName: nat -> string, personId: PersonId, name: string)
    requires PassSoFar(before, nextBefore, after, nextAfter, faces, ids, names, now, randomName)
    requires |ids| < |faces|
    requires EntryStep(after, nextAfter, after', nextAfter', faces[|ids|], now, randomName(|ids|), personId, name)
    ensures PassSoFar(before, nextBefore, after', nextAfter', faces, ids + [personId], names + [name], now, randomName)
  {
    var face, newName := faces[|ids|], randomName(|ids|);
    GrownStep(before, nextBefore, after, nextAfter, after', nextAfter', face, now, newName, personId, name);
    RecognisedStep(after, nextAfter, after', nextAfter', ids, names, face, now, newName, personId, name);
    SeenCountsStep(before, after, nextAfter, after', nextAfter', ids, face, now, newName, personId, name);
    LatestImagesStep(after, nextAfter, after', nextAfter', faces, ids, now, newName, personId, name);
    NewcomersNamedStep(before, after, nextAfter, after', nextAfter', faces, ids, names, randomName, now, personId, name);
    OnlyMetStep(before, nextBefore, after, nextAfter, after', nextAfter', ids, face, now, newName, personId, name);
  }

  class EyeAgent {
    const agentId: string
    const db: PersonDatabase
    var lastRecognizedPersonId: Option<PersonId>
    var lastRecognitionTime: real
    var lastAnalysisTime: real

    ghost predicate Valid()
      reads this, db
    {
      db.Valid()
    }

    constructor (agentId: string)
      ensures Valid() && fresh(db) && db.persons.keys == [] && db.nextId == 1
      ensures this.agentId == agentId
      ensures lastRecognizedPersonId.None? && lastRecognitionTime == 0.0 && lastAnalysisTime == 0.0
    {
      this.agentId := agentId;
      db := new PersonDatabase();
      lastRecognizedPersonId := None;
      lastRecognitionTime := 0.0;
      lastAnalysisTime := 0.0;
    }

    /**
     * One face: a match in the store is seen once more (now, with the face's
     * image); no match adds a record under the given random name.
     */
    method RecognizeFace(face: DetectedFace, now: real, similarity: (Encoding, Encoding) -> real, newName: string)
      returns (personId: PersonId, name: string)
      requires Valid()
      modifies db
      ensures Valid()
      ensures FaceStep(old(db.persons), old(db.nextId), db.persons, db.nextId, face, similarity, now, newName, personId, name)
      ensures personId in old(db.persons.entries) <==> HasMatch(old(db.persons.entries), similarity, face.encoding, DefaultThreshold)
      ensures personId in old(db.persons.entries) ==>
        && db.nextId == old(db.nextId) && name == old(db.persons.entries)[personId].name
        && db.persons.entries == old(db.persons.entries)[personId := Updated(old(db.persons.entries)[personId], now, Some(face.image))]
      ensures personId !in old(db.persons.entries) ==>
        && personId == old(db.nextId) && db.nextId == old(db.nextId) + 1 && name == newName
        && db.persons.entries == old(db.persons.entries)[personId := Person(personId, newName, Some(face.encoding), face.image, now, now, 1)]
    {
      var found := db.FindSimilarPerson(face.encoding, similarity);
      if found.Some? {
        personId := found.value;
        name := db.persons.entries[personId].name;
        db.UpdatePerson(personId, now, Some(now), Some(face.image));
      } else {
        name := newName;
        personId := db.AddPerson(newName, Some(face.encoding), face.image, now);
      }
    }

    /**
     * One recognition pass: the faces in order, each matched against the
     * store as it stands at that moment; the i-th face, when new, takes the
     * i-th random name.
     */
    method RecognizeFaces(faces: seq<DetectedFace>, now: real, similarity: (Encoding, Encoding) -> real,
                          randomName: nat -> string)
      returns (ids: seq<PersonId>, names: seq<string>, ghost stores: seq<ODict<PersonId, Person>>, ghost nexts: seq<int>)
      requires Valid()
      modifies db
      ensures Valid()
      ensures |ids| == |faces| && |names| == |faces|
      ensures FaceSteps(stores, nexts, faces, ids, names, now, similarity, randomName)
      ensures stores[0] == old(db.persons) && nexts[0] == old(db.nextId)
      ensures stores[|faces|] == db.persons && nexts[|faces|] == db.nextId
      // The whole pass: the store grew (`Grown`), every face names a record seen now (`Recognised`),
      // counts went up once per face (`SeenCounts`), each record keeps its last face's image
      // (`LatestImages`), newcomers carry their random name and encoding (`NewcomersNamed`), and
      // every new id and every changed record comes from a face of the pass (`OnlyMet`).
      ensures PassSoFar(old(db.persons.entries), old(db.nextId), db.persons.entries, db.nextId, faces, ids, names, now, randomName)
    {
      ids := [];
      names := [];
      stores := [db.persons];
      nexts := [db.nextId];
      for i := 0 to |faces|
        invariant db.Valid() && |ids| == i
        invariant PassSoFar(old(db.persons.entries), old(db.nextId), db.persons.entries, db.nextId,
                            faces, ids, names, now, randomName)
        invariant FaceSteps(stores, nexts, faces, ids, names, now, similarity, randomName)
        invariant stores[0] == old(db.persons) && nexts[0] == old(db.nextId)
        invariant stores[i] == db.persons && nexts[i] == db.nextId
      {
        ghost var after, nextAfter := db.persons.entries, db.nextId;
        var personId, name := RecognizeFace(faces[i], now, similarity, randomName(i));
        PassStep(old(db.persons.entries), old(db.nextId), after, nextAfter, db.persons.entries, db.nextId,
                 faces, ids, names, now, randomName, personId, name);
        FaceStepsExtend(stores, nexts, faces, ids, names, now, similarity, randomName, db.persons, db.nextId,
                        personId, name);
        ids := ids + [personId];
        names := names + [name];
        stores := stores + [db.persons];
        nexts := nexts + [db.nextId];
      }
    }

    /**
     * Greets the first recognised person unless that same person was
     * greeted less than the cooldown ago. A due greeting records the person
     * and the time even when no message can be built.
     */
    method SendGreetingIfNeeded(personIds: seq<PersonId>, personNames: seq<string>, now: real)
      returns (greeting: Option<Dict>)
      requires |personNames| == |personIds|
      modifies this`lastRecognizedPersonId, this`lastRecognitionTime
      ensures personIds == [] ==>
        greeting.None? && lastRecognizedPersonId == old(lastRecognizedPersonId)
        && lastRecognitionTime == old(lastRecognitionTime)
      ensures personIds != [] && !Due(old(lastRecognizedPersonId), old(lastRecognitionTime), personIds[0], now) ==>
        greeting.None? && lastRecognizedPersonId == old(lastRecognizedPersonId)
        && lastRecognitionTime == old(lastRecognitionTime)
      ensures personIds != [] && Due(old(lastRecognizedPersonId), old(lastRecognitionTime), personIds[0], now) ==>
        && lastRecognizedPersonId == Some(personIds[0]) && lastRecognitionTime == now
        && (greeting.Some? <==> personIds[0] in db.persons.entries)
        && (greeting.Some? ==> greeting.value == McpProtocol.TextDict(agentId, "brain",
              GreetingText(personNames[0], db.persons.entries[personIds[0]].seenCount)))
    {
      if personIds == [] {
        return None;
      }
      var personId := personIds[0];
      var personName := personNames[0];
      if !Due(lastRecognizedPersonId, lastRecognitionTime, personId, now) {
        return None;
      }
      lastRecognizedPersonId := Some(personId);
      lastRecognitionTime := now;
      var person := db.GetPerson(personId);
      if person.None? {
        return None;
      }
      greeting := Some(McpProtocol.TextDict(agentId, "brain", GreetingText(personName, person.value.seenCount)));
    }

    /** A greeting is due for another person, or for the same one once the cooldown has passed. */
    static predicate Due(lastId: Option<PersonId>, lastTime: real, personId: PersonId, now: real) {
      lastId != Some(personId) || now - lastTime >= RecognitionCooldown
    }

    /**
     * The whole recognition step for one frame: nothing happens without
     * faces; otherwise the faces are recognised and the first may be greeted.
     */
    method ProcessFaceRecognition(faces: seq<DetectedFace>, now: real, similarity: (Encoding, Encoding) -> real,
                                  randomName: nat -> string)
      returns (ids: seq<PersonId>, names: seq<string>, greeting: Option<Dict>,
               ghost stores: seq<ODict<PersonId, Person>>, ghost nexts: seq<int>)
      requires Valid()
      modifies db, this`lastRecognizedPersonId, this`lastRecognitionTime
      ensures Valid()
      ensures faces == [] ==>
        ids == [] && greeting.None? && db.persons == old(db.persons) && db.nextId == old(db.nextId)
        && lastRecognizedPersonId == old(lastRecognizedPersonId) && lastRecognitionTime == old(lastRecognitionTime)
      ensures |ids| == |faces| && |names| == |faces|
      ensures FaceSteps(stores, nexts, faces, ids, names, now, similarity, randomName)
      ensures stores[0] == old(db.persons) && nexts[0] == old(db.nextId)
      ensures stores[|faces|] == db.persons && nexts[|faces|] == db.nextId
      ensures PassSoFar(old(db.persons.entries), old(db.nextId), db.persons.entries, db.nextId, faces, ids, names, now, randomName)
      ensures forall i :: 0 <= i < |ids| ==> ids[i] in db.persons.entries && db.persons.entries[ids[i]].name == names[i]
      ensures faces != [] && Due(old(lastRecognizedPersonId), old(lastRecognitionTime), ids[0], now) ==>
        && lastRecognizedPersonId == Some(ids[0]) && lastRecognitionTime == now
        && greeting == Some(McpProtocol.TextDict(agentId, "brain",
             GreetingText(names[0], db.persons.entries[ids[0]].seenCount)))
      ensures faces != [] && !Due(old(lastRecognizedPersonId), old(lastRecognitionTime), ids[0], now) ==>
        greeting.None? && lastRecognizedPersonId == old(lastRecognizedPersonId)
        && lastRecognitionTime == old(lastRecognitionTime)
      // A person already stored is welcomed back; a new face seen once in the frame is met for the first time.
      ensures faces != [] && greeting.Some? && ids[0] in old(db.persons.entries) ==>
        greeting.value == McpProtocol.TextDict(agentId, "brain", GreetingText(names[0], 2))
      ensures faces != [] && greeting.Some? && ids[0] !in old(db.persons.entries) && ids[0] !in ids[1..] ==>
        greeting.value == McpProtocol.TextDict(agentId, "brain", GreetingText(names[0], 1))
    {
      if faces == [] {
        PassSoFarEmpty(db.persons.entries, db.nextId, faces, now, randomName);
        return [], [], None, [db.persons], [db.nextId];
      }
      ids, names, stores, nexts := RecognizeFaces(faces, now, similarity, randomName);
      FirstFaceCount(old(db.persons.entries), db.persons.entries, ids);
      greeting := SendGreetingIfNeeded(ids, names, now);
    }

    /**
     * The analysis throttle: at most one image every interval goes to the
     * brain, naming the last recognised person when that person is stored.
     */
    method AnalysisTick(imageBase64: string, now: real, freshId: string, stamp: string)
      returns (toBrain: Option<Dict>)
      requires freshId != ""
      modifies this`lastAnalysisTime
      ensures now - old(lastAnalysisTime) < AnalysisInterval ==>
        toBrain.None? && lastAnalysisTime == old(lastAnalysisTime)
      ensures now - old(lastAnalysisTime) >= AnalysisInterval ==>
        && lastAnalysisTime == now
        && toBrain == Some(McpProtocol.ToDict(McpProtocol.ImageMessage(freshId, stamp, agentId, "brain", imageBase64,
             personName := PersonNameOf(db, lastRecognizedPersonId))))
    {
      if now - lastAnalysisTime < AnalysisInterval {
        return None;
      }
      lastAnalysisTime := now;
      var personName: Option<string> := None;
      if lastRecognizedPersonId.Some? {
        var person := db.GetPerson(lastRecognizedPersonId.value);
        if person.Some? {
          personName := Some(person.value.name);
        }
      }
      var message := McpProtocol.ImageMessage(freshId, stamp, agentId, "brain", imageBase64, personName := personName);
      toBrain := Some(McpProtocol.ToDict(message));
    }

    /** The name attached to analysed images: the last recognised person's, when stored. */
    static function PersonNameOf(db: PersonDatabase, lastId: Option<PersonId>): (r: Option<string>)
      reads db
      ensures r.Some? <==> lastId.Some? && lastId.value in db.persons.entries
      ensures r.Some? ==> r.value == db.persons.entries[lastId.value].name
    {
      if lastId.Some? && lastId.value in db.persons.entries then Some(db.persons.entries[lastId.value].name) else None
    }
  }
}
