/** The seven beatmap characteristics and their names in info.dat. */
module Characteristic {
  import opened Options

  datatype BeatmapCharacteristic =
    | Degree360
    | Degree90
    | Standard
    | NoArrows
    | OneSaber
    | Lawless
    | Lightshow

  /** Every name that denotes a characteristic. */
  const KnownNames: set<string> :=
    {"360Degree", "90Degree", "Standard", "NoArrows", "OneSaber", "Lawless", "Lightshow"}

  /** `BeatmapCharacteristic::as_str` */
  function AsStr(c: BeatmapCharacteristic): (r: string)
    ensures FromName(r) == Some(c)
  {
    match c
    case Degree360 => "360Degree"
    case Degree90 => "90Degree"
    case Standard => "Standard"
    case NoArrows => "NoArrows"
    case OneSaber => "OneSaber"
    case Lawless => "Lawless"
    case Lightshow => "Lightshow"
  }

  /** The name match inside `DifficultyBeatmapSet::new`; any other name is rejected. */
  function FromName(name: string): Option<BeatmapCharacteristic>
  {
    match name
    case "360Degree" => Some(Degree360)
    case "90Degree" => Some(Degree90)
    case "Standard" => Some(Standard)
    case "NoArrows" => Some(NoArrows)
    case "OneSaber" => Some(OneSaber)
    case "Lawless" => Some(Lawless)
    case "Lightshow" => Some(Lightshow)
    case _ => None
  }

  /** Exactly the seven known names decode. */
  lemma FromNameKnown(name: string)
    ensures FromName(name).Some? <==> name in KnownNames
  {
  }

  /** Every name that decodes is the name of what it decodes to. */
  lemma NameRoundTrip(name: string)
    requires FromName(name).Some?
    ensures AsStr(FromName(name).value) == name
  {
  }

  /** No two characteristics share a name. */
  lemma AsStrInjective(c: BeatmapCharacteristic, d: BeatmapCharacteristic)
    requires AsStr(c) == AsStr(d)
    ensures c == d
  {
  }
}
