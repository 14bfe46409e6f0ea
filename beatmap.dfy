/** The difficulty records of info.dat and their fail-closed decoding. */
module Beatmap {
  import opened Options
  import opened Json
  import Characteristic

  datatype DifficultyBeatmap = DifficultyBeatmap(
    difficulty: string,
    difficultyRank: u64,
    beatmapFilename: string)

  datatype DifficultyBeatmapSet = DifficultyBeatmapSet(
    beatmapCharacteristicName: Characteristic.BeatmapCharacteristic,
    difficultyBeatmaps: seq<DifficultyBeatmap>)

  /** `DifficultyBeatmap::new`: succeeds exactly when both names are strings and
      the rank is a u64, and then carries those three values. */
  function NewDifficultyBeatmap(data: Value): (r: Option<DifficultyBeatmap>)
    ensures r.Some? <==>
      Get(data, "_difficulty").Str? &&
      Get(data, "_difficultyRank").Number? && 0 <= Get(data, "_difficultyRank").n < U64_LIMIT &&
      Get(data, "_beatmapFilename").Str?
    ensures r.Some? ==>
      Get(data, "_difficulty") == Str(r.value.difficulty) &&
      Get(data, "_difficultyRank") == Number(r.value.difficultyRank as int) &&
      Get(data, "_beatmapFilename") == Str(r.value.beatmapFilename)
  {
    match AsStr(Get(data, "_difficulty"))
    case None => None
    case Some(difficulty) =>
      match AsU64(Get(data, "_difficultyRank"))
      case None => None
      case Some(difficultyRank) =>
        match AsStr(Get(data, "_beatmapFilename"))
        case None => None
        case Some(beatmapFilename) => Some(DifficultyBeatmap(difficulty, difficultyRank, beatmapFilename))
  }

  /** The characteristic a set declares, if its `_beatmapCharacteristicName`
      is a string that decodes. */
  function CharacteristicOf(data: Value): Option<Characteristic.BeatmapCharacteristic>
  {
    match AsStr(Get(data, "_beatmapCharacteristicName"))
    case None => None
    case Some(name) => Characteristic.FromName(name)
  }

  /** A set's characteristic decodes exactly when its name is a string naming
      one of the seven, and it is then the characteristic of that name. */
  lemma CharacteristicOfKnown(data: Value)
    ensures CharacteristicOf(data).Some? <==>
      Get(data, "_beatmapCharacteristicName").Str? &&
      Get(data, "_beatmapCharacteristicName").s in Characteristic.KnownNames
    ensures CharacteristicOf(data).Some? ==>
      Get(data, "_beatmapCharacteristicName") == Str(Characteristic.AsStr(CharacteristicOf(data).value))
  {
    var v := Get(data, "_beatmapCharacteristicName");
    if v.Str? {
      Characteristic.FromNameKnown(v.s);
      if Characteristic.FromName(v.s).Some? {
        Characteristic.NameRoundTrip(v.s);
      }
    }
  }

  /** Specification of `DifficultyBeatmapSet::new`: the set decodes exactly when
      its characteristic name decodes, its beatmaps are an array and every one
      of them decodes; the decoded beatmaps are then those elements, in order. */
  function DifficultyBeatmapSetOf(data: Value): Option<DifficultyBeatmapSet>
  {
    match CharacteristicOf(data)
    case None => None
    case Some(c) =>
      match AsArray(Get(data, "_difficultyBeatmaps"))
      case None => None
      case Some(items) =>
        match MapAll(NewDifficultyBeatmap, items)
        case None => None
        case Some(beatmaps) => Some(DifficultyBeatmapSet(c, beatmaps))
  }

  /** A difficulty set decodes exactly when its characteristic name is known,
      its `_difficultyBeatmaps` is an array and every beatmap of it decodes; the
      set then keeps the characteristic and the beatmaps, as many and in order. */
  lemma DifficultyBeatmapSetOfIff(data: Value)
    ensures DifficultyBeatmapSetOf(data).Some? <==>
      CharacteristicOf(data).Some? &&
      Get(data, "_difficultyBeatmaps").Array? &&
      forall i :: 0 <= i < |Get(data, "_difficultyBeatmaps").items| ==>
        NewDifficultyBeatmap(Get(data, "_difficultyBeatmaps").items[i]).Some?
    ensures DifficultyBeatmapSetOf(data).Some? ==>
      var items := Get(data, "_difficultyBeatmaps").items;
      CharacteristicOf(data) == Some(DifficultyBeatmapSetOf(data).value.beatmapCharacteristicName) &&
      |DifficultyBeatmapSetOf(data).value.difficultyBeatmaps| == |items| &&
      forall i :: 0 <= i < |items| ==> NewDifficultyBeatmap(items[i]) == Some(DifficultyBeatmapSetOf(data).value.difficultyBeatmaps[i])
  {
  }

  /** `DifficultyBeatmapSet::new`: decode the characteristic name, then push
      every decoded beatmap, giving up at the first one that fails. */
  method NewDifficultyBeatmapSet(data: Value) returns (r: Option<DifficultyBeatmapSet>)
    ensures r == DifficultyBeatmapSetOf(data)
  {
    var difficultyBeatmaps: seq<DifficultyBeatmap> := [];
    var name := AsStr(Get(data, "_beatmapCharacteristicName"));
    if name.None? {
      return None;
    }
    var beatmapCharacteristicName := Characteristic.FromName(name.value);
    if beatmapCharacteristicName.None? {
      return None;
    }
    var items := AsArray(Get(data, "_difficultyBeatmaps"));
    if items.None? {
      return None;
    }
    var i := 0;
    while i < |items.value|
      invariant 0 <= i <= |items.value|
      invariant |difficultyBeatmaps| == i
      invariant forall j :: 0 <= j < i ==> NewDifficultyBeatmap(items.value[j]) == Some(difficultyBeatmaps[j])
    {
      var beatmap := NewDifficultyBeatmap(items.value[i]);
      if beatmap.None? {
        return None;
      }
      difficultyBeatmaps := difficultyBeatmaps + [beatmap.value];
      i := i + 1;
    }
    ghost var decoded := MapAll(NewDifficultyBeatmap, items.value);
    assert decoded.value == difficultyBeatmaps;
    return Some(DifficultyBeatmapSet(beatmapCharacteristicName.value, difficultyBeatmaps));
  }

  /** A characteristic name outside the seven, or one that is not a string,
      rejects the whole set whatever its beatmaps are. */
  lemma UnknownNameRejects(data: Value)
    requires !Get(data, "_beatmapCharacteristicName").Str? ||
             Get(data, "_beatmapCharacteristicName").s !in Characteristic.KnownNames
    ensures DifficultyBeatmapSetOf(data) == None
  {
    CharacteristicOfKnown(data);
  }

  /** One beatmap that does not decode rejects the whole set. */
  lemma FailingBeatmapRejects(data: Value, k: nat)
    requires Get(data, "_difficultyBeatmaps").Array?
    requires k < |Get(data, "_difficultyBeatmaps").items|
    requires NewDifficultyBeatmap(Get(data, "_difficultyBeatmaps").items[k]).None?
    ensures DifficultyBeatmapSetOf(data) == None
  {
  }

  /** The info.dat form of a beatmap, with exactly the field names the decoder reads. */
  function EncodeDifficultyBeatmap(b: DifficultyBeatmap): Value
  {
    Object(map[
      "_difficulty" := Str(b.difficulty),
      "_difficultyRank" := Number(b.difficultyRank as int),
      "_beatmapFilename" := Str(b.beatmapFilename)])
  }

  /** The info.dat form of a difficulty set. */
  function EncodeDifficultyBeatmapSet(s: DifficultyBeatmapSet): Value
  {
    Object(map[
      "_beatmapCharacteristicName" := Str(Characteristic.AsStr(s.beatmapCharacteristicName)),
      "_difficultyBeatmaps" := Array(seq(|s.difficultyBeatmaps|, i requires 0 <= i < |s.difficultyBeatmaps| =>
        EncodeDifficultyBeatmap(s.difficultyBeatmaps[i])))])
  }

  /** Every beatmap record is decoded back from its own info.dat form. */
  lemma DifficultyBeatmapRoundTrip(b: DifficultyBeatmap)
    ensures NewDifficultyBeatmap(EncodeDifficultyBeatmap(b)) == Some(b)
  {
  }

  /** Every difficulty set is decoded back from its own info.dat form: the
      characteristic through its name, and the beatmaps in their order. */
  lemma DifficultyBeatmapSetRoundTrip(s: DifficultyBeatmapSet)
    ensures DifficultyBeatmapSetOf(EncodeDifficultyBeatmapSet(s)) == Some(s)
  {
    var data := EncodeDifficultyBeatmapSet(s);
    var items := Get(data, "_difficultyBeatmaps").items;
    forall i | 0 <= i < |items|
      ensures NewDifficultyBeatmap(items[i]) == Some(s.difficultyBeatmaps[i])
    {
      DifficultyBeatmapRoundTrip(s.difficultyBeatmaps[i]);
    }
    var r := DifficultyBeatmapSetOf(data);
    assert r.Some?;
    assert r.value.difficultyBeatmaps == s.difficultyBeatmaps;
  }
}
