/** The emotion classifier run on every detection tick: blendshape lookup,
    four pairwise means, and the strict thresholds that turn them into
    candidate events, in a fixed order. */
module Emotion {
  import opened EventLog

  /** One named blendshape score reported for a detected face. */
  datatype Category = Category(categoryName: string, score: real)

  /** The four live metrics published on every tick with a face. */
  datatype Scores = Scores(happy: real, angry: real, surprised: real, confused: real)

  const DelightThreshold: real := 0.2
  const FrustrationThreshold: real := 0.2
  const SurpriseThreshold: real := 0.3
  const ConfusionThreshold: real := 0.3

  /** The score of the first category called `name`, or 0 when there is none. */
  function GetScore(shapes: seq<Category>, name: string): (r: real)
    ensures (forall i | 0 <= i < |shapes| :: shapes[i].categoryName != name) ==> r == 0.0
    ensures forall i | 0 <= i < |shapes| && shapes[i].categoryName == name ::
      (forall j | 0 <= j < i :: shapes[j].categoryName != name) ==> r == shapes[i].score
  {
    if shapes == [] then 0.0
    else if shapes[0].categoryName == name then shapes[0].score
    else GetScore(shapes[1..], name)
  }

  predicate InUnitRange(x: real) {
    0.0 <= x <= 1.0
  }

  /** When every reported score is in [0,1], so is every looked-up score. */
  lemma {:induction false} GetScoreInUnitRange(shapes: seq<Category>, name: string)
    requires forall i | 0 <= i < |shapes| :: InUnitRange(shapes[i].score)
    ensures InUnitRange(GetScore(shapes, name))
  {
    if shapes != [] && shapes[0].categoryName != name {
      GetScoreInUnitRange(shapes[1..], name);
    }
  }

  /** `m` lies between `a` and `b`, whichever is larger. */
  predicate Between(m: real, a: real, b: real) {
    (a <= m <= b) || (b <= m <= a)
  }

  function Mean(a: real, b: real): (m: real) {
    (a + b) / 2.0
  }

  /** The four pairwise means of the left and right blendshapes. */
  function Classify(shapes: seq<Category>): (s: Scores)
    ensures Between(s.happy, GetScore(shapes, "mouthSmileLeft"), GetScore(shapes, "mouthSmileRight"))
    ensures Between(s.angry, GetScore(shapes, "browDownLeft"), GetScore(shapes, "browDownRight"))
    ensures Between(s.surprised, GetScore(shapes, "browOuterUpLeft"), GetScore(shapes, "browOuterUpRight"))
    ensures Between(s.confused, GetScore(shapes, "eyeSquintLeft"), GetScore(shapes, "eyeSquintRight"))
  {
    Scores(
      Mean(GetScore(shapes, "mouthSmileLeft"), GetScore(shapes, "mouthSmileRight")),
      Mean(GetScore(shapes, "browDownLeft"), GetScore(shapes, "browDownRight")),
      Mean(GetScore(shapes, "browOuterUpLeft"), GetScore(shapes, "browOuterUpRight")),
      Mean(GetScore(shapes, "eyeSquintLeft"), GetScore(shapes, "eyeSquintRight")))
  }

  predicate Named(shapes: seq<Category>, name: string) {
    exists i | 0 <= i < |shapes| :: shapes[i].categoryName == name
  }

  /** A missing blendshape contributes 0 to its mean: with one category of
      a pair absent the metric is half the other's score, with both absent it is 0. */
  lemma MissingCategoryCountsAsZero(shapes: seq<Category>)
    ensures !Named(shapes, "mouthSmileLeft") ==>
      Classify(shapes).happy == GetScore(shapes, "mouthSmileRight") / 2.0
    ensures !Named(shapes, "mouthSmileRight") ==>
      Classify(shapes).happy == GetScore(shapes, "mouthSmileLeft") / 2.0
    ensures !Named(shapes, "browDownLeft") ==>
      Classify(shapes).angry == GetScore(shapes, "browDownRight") / 2.0
    ensures !Named(shapes, "browDownRight") ==>
      Classify(shapes).angry == GetScore(shapes, "browDownLeft") / 2.0
    ensures !Named(shapes, "browOuterUpLeft") ==>
      Classify(shapes).surprised == GetScore(shapes, "browOuterUpRight") / 2.0
    ensures !Named(shapes, "browOuterUpRight") ==>
      Classify(shapes).surprised == GetScore(shapes, "browOuterUpLeft") / 2.0
    ensures !Named(shapes, "eyeSquintLeft") ==>
      Classify(shapes).confused == GetScore(shapes, "eyeSquintRight") / 2.0
    ensures !Named(shapes, "eyeSquintRight") ==>
      Classify(shapes).confused == GetScore(shapes, "eyeSquintLeft") / 2.0
    ensures !Named(shapes, "mouthSmileLeft") && !Named(shapes, "mouthSmileRight") ==>
      Classify(shapes).happy == 0.0
    ensures !Named(shapes, "browDownLeft") && !Named(shapes, "browDownRight") ==>
      Classify(shapes).angry == 0.0
    ensures !Named(shapes, "browOuterUpLeft") && !Named(shapes, "browOuterUpRight") ==>
      Classify(shapes).surprised == 0.0
    ensures !Named(shapes, "eyeSquintLeft") && !Named(shapes, "eyeSquintRight") ==>
      Classify(shapes).confused == 0.0
  {
  }

  /** With every reported score in [0,1], all four metrics are in [0,1]. */
  lemma ClassifyInUnitRange(shapes: seq<Category>)
    requires forall i | 0 <= i < |shapes| :: InUnitRange(shapes[i].score)
    ensures var s := Classify(shapes);
      InUnitRange(s.happy) && InUnitRange(s.angry) && InUnitRange(s.surprised) && InUnitRange(s.confused)
  {
    GetScoreInUnitRange(shapes, "mouthSmileLeft");
    GetScoreInUnitRange(shapes, "mouthSmileRight");
    GetScoreInUnitRange(shapes, "browDownLeft");
    GetScoreInUnitRange(shapes, "browDownRight");
    GetScoreInUnitRange(shapes, "browOuterUpLeft");
    GetScoreInUnitRange(shapes, "browOuterUpRight");
    GetScoreInUnitRange(shapes, "eyeSquintLeft");
    GetScoreInUnitRange(shapes, "eyeSquintRight");
  }

  /** The position of each emotion in the order the tick checks them. */
  function Rank(k: EventType): (rank: nat) {
    match k
    case Delight => 0
    case Frustration => 1
    case Surprise => 2
    case Confusion => 3
    case Interaction => 4
  }

  const Smile := Pending(Delight, "Smile")
  const BrowFurrow := Pending(Frustration, "Brow Furrow")
  const EyebrowRaise := Pending(Surprise, "Eyebrow Raise")
  const Squinting := Pending(Confusion, "Squinting")

  /** The candidate events one tick offers to the log, in the order it offers them. */
  function Candidates(s: Scores): (ps: seq<Pending>)
    ensures |ps| <= 4
    ensures forall i | 0 <= i < |ps| :: ps[i].kind != Interaction
  {
    var afterHappy := if s.happy > DelightThreshold then [Smile] else [];
    var afterAngry := if s.angry > FrustrationThreshold then afterHappy + [BrowFurrow] else afterHappy;
    var afterSurprised := if s.surprised > SurpriseThreshold then afterAngry + [EyebrowRaise] else afterAngry;
    if s.confused > ConfusionThreshold then afterSurprised + [Squinting] else afterSurprised
  }

  /** Each emotion is offered exactly when its metric is strictly above its
      threshold, independently of the others. */
  lemma CandidatesFire(s: Scores)
    ensures var r := Candidates(s);
      && (Smile in r <==> s.happy > DelightThreshold)
      && (BrowFurrow in r <==> s.angry > FrustrationThreshold)
      && (EyebrowRaise in r <==> s.surprised > SurpriseThreshold)
      && (Squinting in r <==> s.confused > ConfusionThreshold)
  {
  }

  /** Nothing but the four emotions is offered, in the fixed order, each at
      most once. */
  lemma CandidatesOrdered(s: Scores)
    ensures var r := Candidates(s);
      && (forall p | p in r :: p in [Smile, BrowFurrow, EyebrowRaise, Squinting])
      && (forall i, j | 0 <= i < j < |r| :: Rank(r[i].kind) < Rank(r[j].kind))
  {
  }
}
