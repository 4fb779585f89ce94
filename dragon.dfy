/**
 * The interactable content behaviour (`Dragon`): it picks the nearest other
 * interactable, keeps a target yaw for facing it, and mirrors its state into
 * the animator's `IsInteracting` flag. Distances, directions and the local
 * yaw of a look rotation are engine values, carried by each candidate.
 */
module DragonBehaviour {
  import opened Wrappers

  /** The interactable's state (declared by the base class). */
  datatype ObjectState = Idle | Active

  /**
   * One interactable as seen from this dragon: the distance between the two
   * positions, the horizontal components of the direction towards it, and
   * the local yaw (Euler y, in degrees) of a look rotation along that direction.
   */
  datatype Candidate = Candidate(distance: real, directionX: real, directionZ: real, localYaw: real)

  /** Vector equality in the engine is approximate: the squared length of the difference must stay below this. */
  const VectorEqualityThreshold: real := 0.0000000000999999944

  /** `direction == Vector3.zero` for the direction with its y component cleared. */
  predicate IsZeroDirection(c: Candidate) {
    c.directionX * c.directionX + c.directionZ * c.directionZ < VectorEqualityThreshold
  }

  /** Euler angles reported by the engine lie in `[0, 360)`. */
  predicate IsEulerAngle(a: real) {
    0.0 <= a < 360.0
  }

  predicate EulerYaws(interactables: seq<Candidate>) {
    forall i :: 0 <= i < |interactables| ==> IsEulerAngle(interactables[i].localYaw)
  }

  /**
   * `GetClosestInteractable`: a running minimum with a strict comparison,
   * so the result is the index of the first candidate at minimal distance,
   * and `None` when there are no candidates.
   */
  method GetClosestInteractable(interactables: seq<Candidate>) returns (closest: Option<nat>)
    ensures closest.None? <==> |interactables| == 0
    ensures closest.Some? ==> closest.value < |interactables|
    ensures closest.Some? ==> forall j :: 0 <= j < |interactables| ==>
      interactables[closest.value].distance <= interactables[j].distance
    ensures closest.Some? ==> forall j :: 0 <= j < closest.value ==>
      interactables[j].distance > interactables[closest.value].distance
  {
    closest := None;
    var closestDistance: Option<real> := None;  // `Mathf.Infinity` until a candidate is seen
    for i := 0 to |interactables|
      invariant closest.None? <==> i == 0
      invariant closestDistance.None? <==> closest.None?
      invariant closest.Some? ==> closest.value < i && closestDistance == Some(interactables[closest.value].distance)
      invariant closest.Some? ==> forall j :: 0 <= j < i ==> interactables[closest.value].distance <= interactables[j].distance
      invariant closest.Some? ==> forall j :: 0 <= j < closest.value ==> interactables[j].distance > interactables[closest.value].distance
    {
      var distance := interactables[i].distance;
      if closestDistance.None? || distance < closestDistance.value {
        closestDistance := Some(distance);
        closest := Some(i);
      }
    }
  }

  class Dragon {
    /** `ARObjectState`. */
    var state: ObjectState
    var targetLocalYRotation: real
    /** Whether `GetComponent<Animator>()` found an animator. */
    var hasAnimator: bool
    /** The animator's `IsInteracting` parameter. */
    var isInteracting: bool

    /** The target yaw is always an Euler angle. */
    ghost predicate Valid()
      reads this
    {
      IsEulerAngle(targetLocalYRotation)
    }

    constructor (initialState: ObjectState)
      ensures Valid()
      ensures state == initialState && targetLocalYRotation == 0.0 && !hasAnimator && !isInteracting
    {
      state := initialState;
      targetLocalYRotation := 0.0;
      hasAnimator, isInteracting := false, false;
    }

    /** `OnEnable`: the target yaw is reset and the animator, if any, stops interacting. */
    method OnEnable(animatorFound: bool)
      modifies this
      ensures Valid()
      ensures targetLocalYRotation == 0.0 && hasAnimator == animatorFound && state == old(state)
      ensures animatorFound ==> !isInteracting
      ensures !animatorFound ==> isInteracting == old(isInteracting)
    {
      hasAnimator := animatorFound;
      targetLocalYRotation := 0.0;
      if hasAnimator {
        isInteracting := false;
      }
    }

    /** `SetState`: with an animator, `IsInteracting` is set exactly when the new state is `Active`. */
    method SetState(s: ObjectState)
      modifies this`state, this`isInteracting
      ensures state == s
      ensures hasAnimator ==> isInteracting == (s == Active)
      ensures !hasAnimator ==> isInteracting == old(isInteracting)
    {
      state := s;
      if hasAnimator {
        isInteracting := s == Active;
      }
    }

    /** `CalculateTargetYRotation`: face the target unless it lies straight above or below. */
    method CalculateTargetYRotation(target: Candidate)
      requires Valid() && IsEulerAngle(target.localYaw)
      modifies this`targetLocalYRotation
      ensures Valid()
      ensures IsZeroDirection(target) ==> targetLocalYRotation == old(targetLocalYRotation)
      ensures !IsZeroDirection(target) ==> targetLocalYRotation == target.localYaw
    {
      if !IsZeroDirection(target) {
        targetLocalYRotation := target.localYaw;
      }
    }

    /**
     * `Update`, up to the smoothing step: when idle the target yaw is 0;
     * when active it turns towards the nearest interactable, if there is one.
     */
    method Update(interactables: seq<Candidate>)
      requires Valid() && EulerYaws(interactables)
      modifies this`targetLocalYRotation
      ensures Valid()
      ensures state == Idle ==> targetLocalYRotation == 0.0
      ensures state == Active && |interactables| == 0 ==> targetLocalYRotation == old(targetLocalYRotation)
      ensures state == Active && |interactables| > 0 ==>
        exists k :: 0 <= k < |interactables|
          && (forall j :: 0 <= j < |interactables| ==> interactables[k].distance <= interactables[j].distance)
          && (forall j :: 0 <= j < k ==> interactables[j].distance > interactables[k].distance)
          && targetLocalYRotation == (if IsZeroDirection(interactables[k]) then old(targetLocalYRotation) else interactables[k].localYaw)
    {
      if state == Active {
        var closest := GetClosestInteractable(interactables);
        if closest.Some? {
          CalculateTargetYRotation(interactables[closest.value]);
        }
      } else if state == Idle {
        targetLocalYRotation := 0.0;
      }
    }
  }
}
