/**
 * The closed vocabularies of the client: one datatype per TypeScript string
 * union, the string list its `z.enum` schema is built from, and the proof
 * that the two name the same values.
 */
module Types {
  import opened Wrappers
  import opened JsValue
  import opened Zod

  /** The `CameraView` union type. */
  datatype CameraView =
    | Side
    | LowTopDown
    | HighTopDown
  {
    /** The string literal of the union member: the value sent on the wire. */
    function Name(): string {
      match this
      case Side => "side"
      case LowTopDown => "low top-down"
      case HighTopDown => "high top-down"
    }

    /** The position of the member in declaration order. */
    function Ordinal(): nat {
      match this
      case Side => 0
      case LowTopDown => 1
      case HighTopDown => 2
    }
  }

  /** Every member of the union, in declaration order. */
  const CameraViewMembers: seq<CameraView> := [Side, LowTopDown, HighTopDown]

  /** The list `CameraViewSchema` is built from. */
  const CameraViewValues: seq<string> := [
    "side",
    "low top-down",
    "high top-down"
  ]

  /** `CameraViewSchema`. */
  const CameraViewSchema: Schema := EnumSchema(CameraViewValues)

  /** The union member a string names, if any. */
  function ParseCameraView(s: string): (r: Option<CameraView>)
    ensures r.Some? ==> r.value.Name() == s
  {
    if s == "side" then Some(Side)
    else if s == "low top-down" then Some(LowTopDown)
    else if s == "high top-down" then Some(HighTopDown)
    else None
  }

  /** The union and its schema list the same 3 strings in the same order. */
  lemma CameraViewListed()
    ensures |CameraViewValues| == |CameraViewMembers| == 3
    ensures forall i :: 0 <= i < 3 ==> CameraViewMembers[i].Name() == CameraViewValues[i]
    ensures forall i :: 0 <= i < 3 ==> CameraViewMembers[i].Ordinal() == i
  {
  }

  /** Every member is listed. */
  lemma CameraViewComplete()
    ensures forall e: CameraView :: e in CameraViewMembers
  {
    forall e: CameraView ensures e in CameraViewMembers {
      match e
      case Side => assert CameraViewMembers[0] == Side;
      case LowTopDown => assert CameraViewMembers[1] == LowTopDown;
      case HighTopDown => assert CameraViewMembers[2] == HighTopDown;
    }
  }

  /** The literal of a member reads back as that member. */
  lemma CameraViewRoundTrip()
    ensures forall e: CameraView :: ParseCameraView(e.Name()) == Some(e)
  {
    forall e: CameraView ensures ParseCameraView(e.Name()) == Some(e) {
      match e
      case Side =>
      case LowTopDown =>
      case HighTopDown =>
    }
  }

  /** The literal of one member is in the schema's list and reads back as that member. */
  lemma CameraViewMember(e: CameraView)
    ensures e.Name() in CameraViewValues && ParseCameraView(e.Name()) == Some(e)
  {
    match e
    case Side => assert CameraViewValues[0] == Side.Name();
    case LowTopDown => assert CameraViewValues[1] == LowTopDown.Name();
    case HighTopDown => assert CameraViewValues[2] == HighTopDown.Name();
  }

  /** `CameraViewSchema` accepts exactly the strings that name a member, and nothing else. */
  lemma CameraViewAccepted()
    ensures forall s :: s in CameraViewValues <==> ParseCameraView(s).Some?
    ensures forall v :: Admits(CameraViewSchema, v) <==> v.Str? && ParseCameraView(v.s).Some?
  {
  }

  /** The 3 strings are pairwise distinct. */
  lemma CameraViewDistinct()
    ensures forall i, j :: 0 <= i < j < 3 ==> CameraViewValues[i] != CameraViewValues[j]
  {
    CameraViewListed();
    CameraViewRoundTrip();
    forall i, j | 0 <= i < j < 3 ensures CameraViewValues[i] != CameraViewValues[j] {
      assert ParseCameraView(CameraViewValues[i]) == Some(CameraViewMembers[i]);
      assert ParseCameraView(CameraViewValues[j]) == Some(CameraViewMembers[j]);
    }
  }

  /** The `Direction` union type. */
  datatype Direction =
    | South
    | SouthEast
    | East
    | NorthEast
    | North
    | NorthWest
    | West
    | SouthWest
  {
    /** The string literal of the union member: the value sent on the wire. */
    function Name(): string {
      match this
      case South => "south"
      case SouthEast => "south-east"
      case East => "east"
      case NorthEast => "north-east"
      case North => "north"
      case NorthWest => "north-west"
      case West => "west"
      case SouthWest => "south-west"
    }

    /** The position of the member in declaration order. */
    function Ordinal(): nat {
      match this
      case South => 0
      case SouthEast => 1
      case East => 2
      case NorthEast => 3
      case North => 4
      case NorthWest => 5
      case West => 6
      case SouthWest => 7
    }
  }

  /** Every member of the union, in declaration order. */
  const DirectionMembers: seq<Direction> := [South, SouthEast, East, NorthEast, North, NorthWest, West, SouthWest]

  /** The list `DirectionSchema` is built from. */
  const DirectionValues: seq<string> := [
    "south",
    "south-east",
    "east",
    "north-east",
    "north",
    "north-west",
    "west",
    "south-west"
  ]

  /** `DirectionSchema`. */
  const DirectionSchema: Schema := EnumSchema(DirectionValues)

  /** The union member a string names, if any. */
  function ParseDirection(s: string): (r: Option<Direction>)
    ensures r.Some? ==> r.value.Name() == s
  {
    if s == "south" then Some(South)
    else if s == "south-east" then Some(SouthEast)
    else if s == "east" then Some(East)
    else if s == "north-east" then Some(NorthEast)
    else if s == "north" then Some(North)
    else if s == "north-west" then Some(NorthWest)
    else if s == "west" then Some(West)
    else if s == "south-west" then Some(SouthWest)
    else None
  }

  /** The union and its schema list the same 8 strings in the same order. */
  lemma DirectionListed()
    ensures |DirectionValues| == |DirectionMembers| == 8
    ensures forall i :: 0 <= i < 8 ==> DirectionMembers[i].Name() == DirectionValues[i]
    ensures forall i :: 0 <= i < 8 ==> DirectionMembers[i].Ordinal() == i
  {
  }

  /** Every member is listed. */
  lemma DirectionComplete()
    ensures forall e: Direction :: e in DirectionMembers
  {
    forall e: Direction ensures e in DirectionMembers {
      match e
      case South => assert DirectionMembers[0] == South;
      case SouthEast => assert DirectionMembers[1] == SouthEast;
      case East => assert DirectionMembers[2] == East;
      case NorthEast => assert DirectionMembers[3] == NorthEast;
      case North => assert DirectionMembers[4] == North;
      case NorthWest => assert DirectionMembers[5] == NorthWest;
      case West => assert DirectionMembers[6] == West;
      case SouthWest => assert DirectionMembers[7] == SouthWest;
    }
  }

  /** The literal of a member reads back as that member. */
  lemma DirectionRoundTrip()
    ensures forall e: Direction :: ParseDirection(e.Name()) == Some(e)
  {
    forall e: Direction ensures ParseDirection(e.Name()) == Some(e) {
      match e
      case South =>
      case SouthEast =>
      case East =>
      case NorthEast =>
      case North =>
      case NorthWest =>
      case West =>
      case SouthWest =>
    }
  }

  /** The literal of one member is in the schema's list and reads back as that member. */
  lemma DirectionMember(e: Direction)
    ensures e.Name() in DirectionValues && ParseDirection(e.Name()) == Some(e)
  {
    match e
    case South => assert DirectionValues[0] == South.Name();
    case SouthEast => assert DirectionValues[1] == SouthEast.Name();
    case East => assert DirectionValues[2] == East.Name();
    case NorthEast => assert DirectionValues[3] == NorthEast.Name();
    case North => assert DirectionValues[4] == North.Name();
    case NorthWest => assert DirectionValues[5] == NorthWest.Name();
    case West => assert DirectionValues[6] == West.Name();
    case SouthWest => assert DirectionValues[7] == SouthWest.Name();
  }

  /** `DirectionSchema` accepts exactly the strings that name a member, and nothing else. */
  lemma DirectionAccepted()
    ensures forall s :: s in DirectionValues <==> ParseDirection(s).Some?
    ensures forall v :: Admits(DirectionSchema, v) <==> v.Str? && ParseDirection(v.s).Some?
  {
  }

  /** The 8 strings are pairwise distinct. */
  lemma DirectionDistinct()
    ensures forall i, j :: 0 <= i < j < 8 ==> DirectionValues[i] != DirectionValues[j]
  {
    DirectionListed();
    DirectionRoundTrip();
    forall i, j | 0 <= i < j < 8 ensures DirectionValues[i] != DirectionValues[j] {
      assert ParseDirection(DirectionValues[i]) == Some(DirectionMembers[i]);
      assert ParseDirection(DirectionValues[j]) == Some(DirectionMembers[j]);
    }
  }

  /** The `Outline` union type. */
  datatype Outline =
    | SingleColorBlackOutline
    | SingleColorOutline
    | SelectiveOutline
    | Lineless
  {
    /** The string literal of the union member: the value sent on the wire. */
    function Name(): string {
      match this
      case SingleColorBlackOutline => "single color black outline"
      case SingleColorOutline => "single color outline"
      case SelectiveOutline => "selective outline"
      case Lineless => "lineless"
    }

    /** The position of the member in declaration order. */
    function Ordinal(): nat {
      match this
      case SingleColorBlackOutline => 0
      case SingleColorOutline => 1
      case SelectiveOutline => 2
      case Lineless => 3
    }
  }

  /** Every member of the union, in declaration order. */
  const OutlineMembers: seq<Outline> := [SingleColorBlackOutline, SingleColorOutline, SelectiveOutline, Lineless]

  /** The list `OutlineSchema` is built from. */
  const OutlineValues: seq<string> := [
    "single color black outline",
    "single color outline",
    "selective outline",
    "lineless"
  ]

  /** `OutlineSchema`. */
  const OutlineSchema: Schema := EnumSchema(OutlineValues)

  /** The union member a string names, if any. */
  function ParseOutline(s: string): (r: Option<Outline>)
    ensures r.Some? ==> r.value.Name() == s
  {
    if s == "single color black outline" then Some(SingleColorBlackOutline)
    else if s == "single color outline" then Some(SingleColorOutline)
    else if s == "selective outline" then Some(SelectiveOutline)
    else if s == "lineless" then Some(Lineless)
    else None
  }

  /** The union and its schema list the same 4 strings in the same order. */
  lemma OutlineListed()
    ensures |OutlineValues| == |OutlineMembers| == 4
    ensures forall i :: 0 <= i < 4 ==> OutlineMembers[i].Name() == OutlineValues[i]
    ensures forall i :: 0 <= i < 4 ==> OutlineMembers[i].Ordinal() == i
  {
  }

  /** Every member is listed. */
  lemma OutlineComplete()
    ensures forall e: Outline :: e in OutlineMembers
  {
    forall e: Outline ensures e in OutlineMembers {
      match e
      case SingleColorBlackOutline => assert OutlineMembers[0] == SingleColorBlackOutline;
      case SingleColorOutline => assert OutlineMembers[1] == SingleColorOutline;
      case SelectiveOutline => assert OutlineMembers[2] == SelectiveOutline;
      case Lineless => assert OutlineMembers[3] == Lineless;
    }
  }

  /** The literal of a member reads back as that member. */
  lemma OutlineRoundTrip()
    ensures forall e: Outline :: ParseOutline(e.Name()) == Some(e)
  {
    forall e: Outline ensures ParseOutline(e.Name()) == Some(e) {
      match e
      case SingleColorBlackOutline =>
      case SingleColorOutline =>
      case SelectiveOutline =>
      case Lineless =>
    }
  }

  /** The literal of one member is in the schema's list and reads back as that member. */
  lemma OutlineMember(e: Outline)
    ensures e.Name() in OutlineValues && ParseOutline(e.Name()) == Some(e)
  {
    match e
    case SingleColorBlackOutline => assert OutlineValues[0] == SingleColorBlackOutline.Name();
    case SingleColorOutline => assert OutlineValues[1] == SingleColorOutline.Name();
    case SelectiveOutline => assert OutlineValues[2] == SelectiveOutline.Name();
    case Lineless => assert OutlineValues[3] == Lineless.Name();
  }

  /** `OutlineSchema` accepts exactly the strings that name a member, and nothing else. */
  lemma OutlineAccepted()
    ensures forall s :: s in OutlineValues <==> ParseOutline(s).Some?
    ensures forall v :: Admits(OutlineSchema, v) <==> v.Str? && ParseOutline(v.s).Some?
  {
  }

  /** The 4 strings are pairwise distinct. */
  lemma OutlineDistinct()
    ensures forall i, j :: 0 <= i < j < 4 ==> OutlineValues[i] != OutlineValues[j]
  {
    OutlineListed();
    OutlineRoundTrip();
    forall i, j | 0 <= i < j < 4 ensures OutlineValues[i] != OutlineValues[j] {
      assert ParseOutline(OutlineValues[i]) == Some(OutlineMembers[i]);
      assert ParseOutline(OutlineValues[j]) == Some(OutlineMembers[j]);
    }
  }

  /** The `Shading` union type. */
  datatype Shading =
    | FlatShading
    | BasicShading
    | MediumShading
    | DetailedShading
    | HighlyDetailedShading
  {
    /** The string literal of the union member: the value sent on the wire. */
    function Name(): string {
      match this
      case FlatShading => "flat shading"
      case BasicShading => "basic shading"
      case MediumShading => "medium shading"
      case DetailedShading => "detailed shading"
      case HighlyDetailedShading => "highly detailed shading"
    }

    /** The position of the member in declaration order. */
    function Ordinal(): nat {
      match this
      case FlatShading => 0
      case BasicShading => 1
      case MediumShading => 2
      case DetailedShading => 3
      case HighlyDetailedShading => 4
    }
  }

  /** Every member of the union, in declaration order. */
  const ShadingMembers: seq<Shading> := [FlatShading, BasicShading, MediumShading, DetailedShading, HighlyDetailedShading]

  /** The list `ShadingSchema` is built from. */
  const ShadingValues: seq<string> := [
    "flat shading",
    "basic shading",
    "medium shading",
    "detailed shading",
    "highly detailed shading"
  ]

  /** `ShadingSchema`. */
  const ShadingSchema: Schema := EnumSchema(ShadingValues)

  /** The union member a string names, if any. */
  function ParseShading(s: string): (r: Option<Shading>)
    ensures r.Some? ==> r.value.Name() == s
  {
    if s == "flat shading" then Some(FlatShading)
    else if s == "basic shading" then Some(BasicShading)
    else if s == "medium shading" then Some(MediumShading)
    else if s == "detailed shading" then Some(DetailedShading)
    else if s == "highly detailed shading" then Some(HighlyDetailedShading)
    else None
  }

  /** The union and its schema list the same 5 strings in the same order. */
  lemma ShadingListed()
    ensures |ShadingValues| == |ShadingMembers| == 5
    ensures forall i :: 0 <= i < 5 ==> ShadingMembers[i].Name() == ShadingValues[i]
    ensures forall i :: 0 <= i < 5 ==> ShadingMembers[i].Ordinal() == i
  {
  }

  /** Every member is listed. */
  lemma ShadingComplete()
    ensures forall e: Shading :: e in ShadingMembers
  {
    forall e: Shading ensures e in ShadingMembers {
      match e
      case FlatShading => assert ShadingMembers[0] == FlatShading;
      case BasicShading => assert ShadingMembers[1] == BasicShading;
      case MediumShading => assert ShadingMembers[2] == MediumShading;
      case DetailedShading => assert ShadingMembers[3] == DetailedShading;
      case HighlyDetailedShading => assert ShadingMembers[4] == HighlyDetailedShading;
    }
  }

  /** The literal of a member reads back as that member. */
  lemma ShadingRoundTrip()
    ensures forall e: Shading :: ParseShading(e.Name()) == Some(e)
  {
    forall e: Shading ensures ParseShading(e.Name()) == Some(e) {
      match e
      case FlatShading =>
      case BasicShading =>
      case MediumShading =>
      case DetailedShading =>
      case HighlyDetailedShading =>
    }
  }

  /** The literal of one member is in the schema's list and reads back as that member. */
  lemma ShadingMember(e: Shading)
    ensures e.Name() in ShadingValues && ParseShading(e.Name()) == Some(e)
  {
    match e
    case FlatShading => assert ShadingValues[0] == FlatShading.Name();
    case BasicShading => assert ShadingValues[1] == BasicShading.Name();
    case MediumShading => assert ShadingValues[2] == MediumShading.Name();
    case DetailedShading => assert ShadingValues[3] == DetailedShading.Name();
    case HighlyDetailedShading => assert ShadingValues[4] == HighlyDetailedShading.Name();
  }

  /** `ShadingSchema` accepts exactly the strings that name a member, and nothing else. */
  lemma ShadingAccepted()
    ensures forall s :: s in ShadingValues <==> ParseShading(s).Some?
    ensures forall v :: Admits(ShadingSchema, v) <==> v.Str? && ParseShading(v.s).Some?
  {
  }

  /** The 5 strings are pairwise distinct. */
  lemma ShadingDistinct()
    ensures forall i, j :: 0 <= i < j < 5 ==> ShadingValues[i] != ShadingValues[j]
  {
    ShadingListed();
    ShadingRoundTrip();
    forall i, j | 0 <= i < j < 5 ensures ShadingValues[i] != ShadingValues[j] {
      assert ParseShading(ShadingValues[i]) == Some(ShadingMembers[i]);
      assert ParseShading(ShadingValues[j]) == Some(ShadingMembers[j]);
    }
  }

  /** The `Detail` union type. */
  datatype Detail =
    | LowDetail
    | MediumDetail
    | HighlyDetailed
  {
    /** The string literal of the union member: the value sent on the wire. */
    function Name(): string {
      match this
      case LowDetail => "low detail"
      case MediumDetail => "medium detail"
      case HighlyDetailed => "highly detailed"
    }

    /** The position of the member in declaration order. */
    function Ordinal(): nat {
      match this
      case LowDetail => 0
      case MediumDetail => 1
      case HighlyDetailed => 2
    }
  }

  /** Every member of the union, in declaration order. */
  const DetailMembers: seq<Detail> := [LowDetail, MediumDetail, HighlyDetailed]

  /** The list `DetailSchema` is built from. */
  const DetailValues: seq<string> := [
    "low detail",
    "medium detail",
    "highly detailed"
  ]

  /** `DetailSchema`. */
  const DetailSchema: Schema := EnumSchema(DetailValues)

  /** The union member a string names, if any. */
  function ParseDetail(s: string): (r: Option<Detail>)
    ensures r.Some? ==> r.value.Name() == s
  {
    if s == "low detail" then Some(LowDetail)
    else if s == "medium detail" then Some(MediumDetail)
    else if s == "highly detailed" then Some(HighlyDetailed)
    else None
  }

  /** The union and its schema list the same 3 strings in the same order. */
  lemma DetailListed()
    ensures |DetailValues| == |DetailMembers| == 3
    ensures forall i :: 0 <= i < 3 ==> DetailMembers[i].Name() == DetailValues[i]
    ensures forall i :: 0 <= i < 3 ==> DetailMembers[i].Ordinal() == i
  {
  }

  /** Every member is listed. */
  lemma DetailComplete()
    ensures forall e: Detail :: e in DetailMembers
  {
    forall e: Detail ensures e in DetailMembers {
      match e
      case LowDetail => assert DetailMembers[0] == LowDetail;
      case MediumDetail => assert DetailMembers[1] == MediumDetail;
      case HighlyDetailed => assert DetailMembers[2] == HighlyDetailed;
    }
  }

  /** The literal of a member reads back as that member. */
  lemma DetailRoundTrip()
    ensures forall e: Detail :: ParseDetail(e.Name()) == Some(e)
  {
    forall e: Detail ensures ParseDetail(e.Name()) == Some(e) {
      match e
      case LowDetail =>
      case MediumDetail =>
      case HighlyDetailed =>
    }
  }

  /** The literal of one member is in the schema's list and reads back as that member. */
  lemma DetailMember(e: Detail)
    ensures e.Name() in DetailValues && ParseDetail(e.Name()) == Some(e)
  {
    match e
    case LowDetail => assert DetailValues[0] == LowDetail.Name();
    case MediumDetail => assert DetailValues[1] == MediumDetail.Name();
    case HighlyDetailed => assert DetailValues[2] == HighlyDetailed.Name();
  }

  /** `DetailSchema` accepts exactly the strings that name a member, and nothing else. */
  lemma DetailAccepted()
    ensures forall s :: s in DetailValues <==> ParseDetail(s).Some?
    ensures forall v :: Admits(DetailSchema, v) <==> v.Str? && ParseDetail(v.s).Some?
  {
  }

  /** The 3 strings are pairwise distinct. */
  lemma DetailDistinct()
    ensures forall i, j :: 0 <= i < j < 3 ==> DetailValues[i] != DetailValues[j]
  {
    DetailListed();
    DetailRoundTrip();
    forall i, j | 0 <= i < j < 3 ensures DetailValues[i] != DetailValues[j] {
      assert ParseDetail(DetailValues[i]) == Some(DetailMembers[i]);
      assert ParseDetail(DetailValues[j]) == Some(DetailMembers[j]);
    }
  }

  /** The `SkeletonLabel` union type. */
  datatype SkeletonLabel =
    | Nose
    | Neck
    | RightShoulder
    | RightElbow
    | RightArm
    | LeftShoulder
    | LeftElbow
    | LeftArm
    | RightHip
    | RightKnee
    | RightLeg
    | LeftHip
    | LeftKnee
    | LeftLeg
    | RightEye
    | LeftEye
    | RightEar
    | LeftEar
  {
    /** The string literal of the union member: the value sent on the wire. */
    function Name(): string {
      match this
      case Nose => "NOSE"
      case Neck => "NECK"
      case RightShoulder => "RIGHT SHOULDER"
      case RightElbow => "RIGHT ELBOW"
      case RightArm => "RIGHT ARM"
      case LeftShoulder => "LEFT SHOULDER"
      case LeftElbow => "LEFT ELBOW"
      case LeftArm => "LEFT ARM"
      case RightHip => "RIGHT HIP"
      case RightKnee => "RIGHT KNEE"
      case RightLeg => "RIGHT LEG"
      case LeftHip => "LEFT HIP"
      case LeftKnee => "LEFT KNEE"
      case LeftLeg => "LEFT LEG"
      case RightEye => "RIGHT EYE"
      case LeftEye => "LEFT EYE"
      case RightEar => "RIGHT EAR"
      case LeftEar => "LEFT EAR"
    }

    /** The position of the member in declaration order. */
    function Ordinal(): nat {
      match this
      case Nose => 0
      case Neck => 1
      case RightShoulder => 2
      case RightElbow => 3
      case RightArm => 4
      case LeftShoulder => 5
      case LeftElbow => 6
      case LeftArm => 7
      case RightHip => 8
      case RightKnee => 9
      case RightLeg => 10
      case LeftHip => 11
      case LeftKnee => 12
      case LeftLeg => 13
      case RightEye => 14
      case LeftEye => 15
      case RightEar => 16
      case LeftEar => 17
    }
  }

  /** Every member of the union, in declaration order. */
  const SkeletonLabelMembers: seq<SkeletonLabel> := [Nose, Neck, RightShoulder, RightElbow, RightArm, LeftShoulder, LeftElbow, LeftArm, RightHip, RightKnee, RightLeg, LeftHip, LeftKnee, LeftLeg, RightEye, LeftEye, RightEar, LeftEar]

  /** The list `SkeletonLabelSchema` is built from. */
  const SkeletonLabelValues: seq<string> := [
    "NOSE",
    "NECK",
    "RIGHT SHOULDER",
    "RIGHT ELBOW",
    "RIGHT ARM",
    "LEFT SHOULDER",
    "LEFT ELBOW",
    "LEFT ARM",
    "RIGHT HIP",
    "RIGHT KNEE",
    "RIGHT LEG",
    "LEFT HIP",
    "LEFT KNEE",
    "LEFT LEG",
    "RIGHT EYE",
    "LEFT EYE",
    "RIGHT EAR",
    "LEFT EAR"
  ]

  /** `SkeletonLabelSchema`. */
  const SkeletonLabelSchema: Schema := EnumSchema(SkeletonLabelValues)

  /** The union member a string names, if any. */
  function ParseSkeletonLabel(s: string): (r: Option<SkeletonLabel>)
    ensures r.Some? ==> r.value.Name() == s
  {
    if s == "NOSE" then Some(Nose)
    else if s == "NECK" then Some(Neck)
    else if s == "RIGHT SHOULDER" then Some(RightShoulder)
    else if s == "RIGHT ELBOW" then Some(RightElbow)
    else if s == "RIGHT ARM" then Some(RightArm)
    else if s == "LEFT SHOULDER" then Some(LeftShoulder)
    else if s == "LEFT ELBOW" then Some(LeftElbow)
    else if s == "LEFT ARM" then Some(LeftArm)
    else if s == "RIGHT HIP" then Some(RightHip)
    else if s == "RIGHT KNEE" then Some(RightKnee)
    else if s == "RIGHT LEG" then Some(RightLeg)
    else if s == "LEFT HIP" then Some(LeftHip)
    else if s == "LEFT KNEE" then Some(LeftKnee)
    else if s == "LEFT LEG" then Some(LeftLeg)
    else if s == "RIGHT EYE" then Some(RightEye)
    else if s == "LEFT EYE" then Some(LeftEye)
    else if s == "RIGHT EAR" then Some(RightEar)
    else if s == "LEFT EAR" then Some(LeftEar)
    else None
  }

  /** The union and its schema list the same 18 strings in the same order. */
  lemma SkeletonLabelListed()
    ensures |SkeletonLabelValues| == |SkeletonLabelMembers| == 18
    ensures forall i :: 0 <= i < 18 ==> SkeletonLabelMembers[i].Name() == SkeletonLabelValues[i]
    ensures forall i :: 0 <= i < 18 ==> SkeletonLabelMembers[i].Ordinal() == i
  {
  }

  /** Every member is listed. */
  lemma SkeletonLabelComplete()
    ensures forall e: SkeletonLabel :: e in SkeletonLabelMembers
  {
    forall e: SkeletonLabel ensures e in SkeletonLabelMembers {
      match e
      case Nose => assert SkeletonLabelMembers[0] == Nose;
      case Neck => assert SkeletonLabelMembers[1] == Neck;
      case RightShoulder => assert SkeletonLabelMembers[2] == RightShoulder;
      case RightElbow => assert SkeletonLabelMembers[3] == RightElbow;
      case RightArm => assert SkeletonLabelMembers[4] == RightArm;
      case LeftShoulder => assert SkeletonLabelMembers[5] == LeftShoulder;
      case LeftElbow => assert SkeletonLabelMembers[6] == LeftElbow;
      case LeftArm => assert SkeletonLabelMembers[7] == LeftArm;
      case RightHip => assert SkeletonLabelMembers[8] == RightHip;
      case RightKnee => assert SkeletonLabelMembers[9] == RightKnee;
      case RightLeg => assert SkeletonLabelMembers[10] == RightLeg;
      case LeftHip => assert SkeletonLabelMembers[11] == LeftHip;
      case LeftKnee => assert SkeletonLabelMembers[12] == LeftKnee;
      case LeftLeg => assert SkeletonLabelMembers[13] == LeftLeg;
      case RightEye => assert SkeletonLabelMembers[14] == RightEye;
      case LeftEye => assert SkeletonLabelMembers[15] == LeftEye;
      case RightEar => assert SkeletonLabelMembers[16] == RightEar;
      case LeftEar => assert SkeletonLabelMembers[17] == LeftEar;
    }
  }

  /** The literal of a member reads back as that member. */
  lemma SkeletonLabelRoundTrip()
    ensures forall e: SkeletonLabel :: ParseSkeletonLabel(e.Name()) == Some(e)
  {
    forall e: SkeletonLabel ensures ParseSkeletonLabel(e.Name()) == Some(e) {
      match e
      case Nose =>
      case Neck =>
      case RightShoulder =>
      case RightElbow =>
      case RightArm =>
      case LeftShoulder =>
      case LeftElbow =>
      case LeftArm =>
      case RightHip =>
      case RightKnee =>
      case RightLeg =>
      case LeftHip =>
      case LeftKnee =>
      case LeftLeg =>
      case RightEye =>
      case LeftEye =>
      case RightEar =>
      case LeftEar =>
    }
  }

  /** The literal of one member is in the schema's list and reads back as that member. */
  lemma SkeletonLabelMember(e: SkeletonLabel)
    ensures e.Name() in SkeletonLabelValues && ParseSkeletonLabel(e.Name()) == Some(e)
  {
    SkeletonLabelComplete();
    SkeletonLabelListed();
    SkeletonLabelRoundTrip();
    assert e in SkeletonLabelMembers;
    var i :| 0 <= i < |SkeletonLabelMembers| && SkeletonLabelMembers[i] == e;
    assert SkeletonLabelValues[i] == e.Name();
  }

  /** `SkeletonLabelSchema` accepts exactly the strings that name a member, and nothing else. */
  lemma SkeletonLabelAccepted()
    ensures forall s :: s in SkeletonLabelValues <==> ParseSkeletonLabel(s).Some?
    ensures forall v :: Admits(SkeletonLabelSchema, v) <==> v.Str? && ParseSkeletonLabel(v.s).Some?
  {
    forall s | ParseSkeletonLabel(s).Some? ensures s in SkeletonLabelValues {
      SkeletonLabelMember(ParseSkeletonLabel(s).value);
    }
    forall s | s in SkeletonLabelValues ensures ParseSkeletonLabel(s).Some? {
      SkeletonLabelListed();
      SkeletonLabelRoundTrip();
      var i :| 0 <= i < 18 && SkeletonLabelValues[i] == s;
      assert ParseSkeletonLabel(SkeletonLabelMembers[i].Name()) == Some(SkeletonLabelMembers[i]);
    }
  }

  /** The 18 strings are pairwise distinct. */
  lemma SkeletonLabelDistinct()
    ensures forall i, j :: 0 <= i < j < 18 ==> SkeletonLabelValues[i] != SkeletonLabelValues[j]
  {
    SkeletonLabelListed();
    SkeletonLabelRoundTrip();
    forall i, j | 0 <= i < j < 18 ensures SkeletonLabelValues[i] != SkeletonLabelValues[j] {
      assert ParseSkeletonLabel(SkeletonLabelValues[i]) == Some(SkeletonLabelMembers[i]);
      assert ParseSkeletonLabel(SkeletonLabelValues[j]) == Some(SkeletonLabelMembers[j]);
    }
  }

  /** An optional `CameraView` as a value: its literal, or `undefined` when absent (so `JSON.stringify` drops it). */
  function OptCameraView(e: Option<CameraView>): (v: Value)
    ensures e.None? <==> v == Undefined
    ensures e.Some? ==> v == Str(e.value.Name())
  {
    if e.Some? then Str(e.value.Name()) else Undefined
  }

  /** `CameraViewSchema.optional()`: absent stays absent, a present value must be one of the literals. */
  function OptionalCameraView(v: Value): (r: Parsed<Option<CameraView>>)
    ensures r.Success? ==> OptCameraView(r.value) == v
  {
    CameraViewAccepted();
    OptionalEnum(v, CameraViewValues, ParseCameraView)
  }

  /** `OptionalCameraView` succeeds exactly on what the schema admits. */
  lemma OptionalCameraViewAgrees(v: Value)
    ensures OptionalCameraView(v).Success? <==> Admits(OptionalSchema(CameraViewSchema), v)
  {
    CameraViewAccepted();
    OptionalEnumAgrees(v, CameraViewValues, ParseCameraView);
  }

  /** A present member is read back as itself, an absent one as absent. */
  lemma OptionalCameraViewRoundTrip(e: Option<CameraView>)
    ensures OptionalCameraView(OptCameraView(e)) == Success(e)
  {
    if e.Some? {
      CameraViewMember(e.value);
    }
  }

  /** An optional `Direction` as a value: its literal, or `undefined` when absent (so `JSON.stringify` drops it). */
  function OptDirection(e: Option<Direction>): (v: Value)
    ensures e.None? <==> v == Undefined
    ensures e.Some? ==> v == Str(e.value.Name())
  {
    if e.Some? then Str(e.value.Name()) else Undefined
  }

  /** `DirectionSchema.optional()`: absent stays absent, a present value must be one of the literals. */
  function OptionalDirection(v: Value): (r: Parsed<Option<Direction>>)
    ensures r.Success? ==> OptDirection(r.value) == v
  {
    DirectionAccepted();
    OptionalEnum(v, DirectionValues, ParseDirection)
  }

  /** `OptionalDirection` succeeds exactly on what the schema admits. */
  lemma OptionalDirectionAgrees(v: Value)
    ensures OptionalDirection(v).Success? <==> Admits(OptionalSchema(DirectionSchema), v)
  {
    DirectionAccepted();
    OptionalEnumAgrees(v, DirectionValues, ParseDirection);
  }

  /** A present member is read back as itself, an absent one as absent. */
  lemma OptionalDirectionRoundTrip(e: Option<Direction>)
    ensures OptionalDirection(OptDirection(e)) == Success(e)
  {
    if e.Some? {
      DirectionMember(e.value);
    }
  }

  /** An optional `Outline` as a value: its literal, or `undefined` when absent (so `JSON.stringify` drops it). */
  function OptOutline(e: Option<Outline>): (v: Value)
    ensures e.None? <==> v == Undefined
    ensures e.Some? ==> v == Str(e.value.Name())
  {
    if e.Some? then Str(e.value.Name()) else Undefined
  }

  /** `OutlineSchema.optional()`: absent stays absent, a present value must be one of the literals. */
  function OptionalOutline(v: Value): (r: Parsed<Option<Outline>>)
    ensures r.Success? ==> OptOutline(r.value) == v
  {
    OutlineAccepted();
    OptionalEnum(v, OutlineValues, ParseOutline)
  }

  /** `OptionalOutline` succeeds exactly on what the schema admits. */
  lemma OptionalOutlineAgrees(v: Value)
    ensures OptionalOutline(v).Success? <==> Admits(OptionalSchema(OutlineSchema), v)
  {
    OutlineAccepted();
    OptionalEnumAgrees(v, OutlineValues, ParseOutline);
  }

  /** A present member is read back as itself, an absent one as absent. */
  lemma OptionalOutlineRoundTrip(e: Option<Outline>)
    ensures OptionalOutline(OptOutline(e)) == Success(e)
  {
    if e.Some? {
      OutlineMember(e.value);
    }
  }

  /** An optional `Shading` as a value: its literal, or `undefined` when absent (so `JSON.stringify` drops it). */
  function OptShading(e: Option<Shading>): (v: Value)
    ensures e.None? <==> v == Undefined
    ensures e.Some? ==> v == Str(e.value.Name())
  {
    if e.Some? then Str(e.value.Name()) else Undefined
  }

  /** `ShadingSchema.optional()`: absent stays absent, a present value must be one of the literals. */
  function OptionalShading(v: Value): (r: Parsed<Option<Shading>>)
    ensures r.Success? ==> OptShading(r.value) == v
  {
    ShadingAccepted();
    OptionalEnum(v, ShadingValues, ParseShading)
  }

  /** `OptionalShading` succeeds exactly on what the schema admits. */
  lemma OptionalShadingAgrees(v: Value)
    ensures OptionalShading(v).Success? <==> Admits(OptionalSchema(ShadingSchema), v)
  {
    ShadingAccepted();
    OptionalEnumAgrees(v, ShadingValues, ParseShading);
  }

  /** A present member is read back as itself, an absent one as absent. */
  lemma OptionalShadingRoundTrip(e: Option<Shading>)
    ensures OptionalShading(OptShading(e)) == Success(e)
  {
    if e.Some? {
      ShadingMember(e.value);
    }
  }

  /** An optional `Detail` as a value: its literal, or `undefined` when absent (so `JSON.stringify` drops it). */
  function OptDetail(e: Option<Detail>): (v: Value)
    ensures e.None? <==> v == Undefined
    ensures e.Some? ==> v == Str(e.value.Name())
  {
    if e.Some? then Str(e.value.Name()) else Undefined
  }

  /** `DetailSchema.optional()`: absent stays absent, a present value must be one of the literals. */
  function OptionalDetail(v: Value): (r: Parsed<Option<Detail>>)
    ensures r.Success? ==> OptDetail(r.value) == v
  {
    DetailAccepted();
    OptionalEnum(v, DetailValues, ParseDetail)
  }

  /** `OptionalDetail` succeeds exactly on what the schema admits. */
  lemma OptionalDetailAgrees(v: Value)
    ensures OptionalDetail(v).Success? <==> Admits(OptionalSchema(DetailSchema), v)
  {
    DetailAccepted();
    OptionalEnumAgrees(v, DetailValues, ParseDetail);
  }

  /** A present member is read back as itself, an absent one as absent. */
  lemma OptionalDetailRoundTrip(e: Option<Detail>)
    ensures OptionalDetail(OptDetail(e)) == Success(e)
  {
    if e.Some? {
      DetailMember(e.value);
    }
  }

  /** `CameraViewSchema`: the value must be one of the literals. */
  function RequiredCameraView(v: Value): (r: Parsed<CameraView>)
    ensures r.Success? ==> v == Str(r.value.Name())
  {
    CameraViewAccepted();
    Enum(v, CameraViewValues, ParseCameraView)
  }

  /** `RequiredCameraView` succeeds exactly on what the schema admits. */
  lemma RequiredCameraViewAgrees(v: Value)
    ensures RequiredCameraView(v).Success? <==> Admits(CameraViewSchema, v)
  {
    CameraViewAccepted();
    EnumAgrees(v, CameraViewValues, ParseCameraView);
  }

  /** A member's literal is read back as that member. */
  lemma RequiredCameraViewRoundTrip(e: CameraView)
    ensures RequiredCameraView(Str(e.Name())) == Success(e)
  {
    CameraViewMember(e);
  }

  /** `CameraViewSchema.default(d)`: an absent value becomes `d`, a present one must be one of the literals. */
  function CameraViewOr(v: Value, d: CameraView): (r: Parsed<CameraView>)
    ensures r.Success? ==> Provided(v, Str(d.Name())) == Str(r.value.Name())
  {
    CameraViewAccepted();
    EnumOr(v, CameraViewValues, ParseCameraView, d.Name())
  }

  /** `CameraViewOr` succeeds exactly on what the schema admits. */
  lemma CameraViewOrAgrees(v: Value, d: CameraView)
    ensures CameraViewOr(v, d).Success? <==> Admits(DefaultSchema(CameraViewSchema, Str(d.Name())), v)
  {
    CameraViewAccepted();
    EnumOrAgrees(v, CameraViewValues, ParseCameraView, d.Name());
  }

  /** A value that is, or defaults to, a member's literal is read as that member. */
  lemma CameraViewOrRoundTrip(v: Value, d: CameraView, e: CameraView)
    requires Provided(v, Str(d.Name())) == Str(e.Name())
    ensures CameraViewOr(v, d) == Success(e)
  {
    CameraViewMember(e);
  }

  /** `DirectionSchema`: the value must be one of the literals. */
  function RequiredDirection(v: Value): (r: Parsed<Direction>)
    ensures r.Success? ==> v == Str(r.value.Name())
  {
    DirectionAccepted();
    Enum(v, DirectionValues, ParseDirection)
  }

  /** `RequiredDirection` succeeds exactly on what the schema admits. */
  lemma RequiredDirectionAgrees(v: Value)
    ensures RequiredDirection(v).Success? <==> Admits(DirectionSchema, v)
  {
    DirectionAccepted();
    EnumAgrees(v, DirectionValues, ParseDirection);
  }

  /** A member's literal is read back as that member. */
  lemma RequiredDirectionRoundTrip(e: Direction)
    ensures RequiredDirection(Str(e.Name())) == Success(e)
  {
    DirectionMember(e);
  }

  /** `DirectionSchema.default(d)`: an absent value becomes `d`, a present one must be one of the literals. */
  function DirectionOr(v: Value, d: Direction): (r: Parsed<Direction>)
    ensures r.Success? ==> Provided(v, Str(d.Name())) == Str(r.value.Name())
  {
    DirectionAccepted();
    EnumOr(v, DirectionValues, ParseDirection, d.Name())
  }

  /** `DirectionOr` succeeds exactly on what the schema admits. */
  lemma DirectionOrAgrees(v: Value, d: Direction)
    ensures DirectionOr(v, d).Success? <==> Admits(DefaultSchema(DirectionSchema, Str(d.Name())), v)
  {
    DirectionAccepted();
    EnumOrAgrees(v, DirectionValues, ParseDirection, d.Name());
  }

  /** A value that is, or defaults to, a member's literal is read as that member. */
  lemma DirectionOrRoundTrip(v: Value, d: Direction, e: Direction)
    requires Provided(v, Str(d.Name())) == Str(e.Name())
    ensures DirectionOr(v, d) == Success(e)
  {
    DirectionMember(e);
  }
}
