/** Kubernetes-side values seen by the two pod controllers: objects, the four
    kinds of watch event, the request a reconcile receives, the result of
    fetching the pod, and Go's strings.Contains. */
module Kube {

  datatype Option<+T> = None | Some(value: T)

  /** A Go `error` value; only its identity matters to the controllers. */
  datatype Error = Error(message: string)

  /** A label map as `GetLabels()` returns it: `None` is Go's nil map, which
      is distinct from the empty map `Some(map[])`. */
  type Labels = Option<map<string, string>>

  /** The parts of a pod object the controllers look at. */
  datatype Obj = Obj(name: string, labels: Labels)

  /** The events controller-runtime hands to a predicate. Event objects are
      always present here: the create and delete closures of the create/delete
      controller and the update closure (for its new object) read the name
      before any nil check, so a nil object would panic; the other closures
      never read their object. The old object of an update may be nil. */
  datatype Event =
    | CreateEvent(obj: Obj)
    | DeleteEvent(obj: Obj)
    | UpdateEvent(objOld: Option<Obj>, objNew: Obj)
    | GenericEvent(obj: Obj)

  /** `req.NamespacedName` of a reconcile request. */
  datatype Request = Request(namespace: string, name: string)

  /** What `r.Get(ctx, req.NamespacedName, &pod)` leaves behind: the pod it
      filled in, an error for which `apierrors.IsNotFound` holds, or any
      other error. */
  datatype FetchResult = Found(pod: Obj) | NotFound | OtherErr(err: Error)

  /** `t` occurs in `s` starting at index `i`. */
  ghost predicate OccursAt(s: string, t: string, i: int)
  {
    0 <= i && i + |t| <= |s| && s[i..i + |t|] == t
  }

  /** Go's `strings.Contains(s, t)`: a case-sensitive literal substring test. */
  function Contains(s: string, t: string): (b: bool)
    ensures b <==> exists i :: OccursAt(s, t, i)
    decreases |s|
  {
    if |t| > |s| then
      false
    else if t <= s then
      assert OccursAt(s, t, 0);
      true
    else
      OccursShift(s, t);
      Contains(s[1..], t)
  }

  /** When `t` is not a prefix of `s`, it occurs in `s` exactly when it occurs
      in the tail of `s`. */
  lemma OccursShift(s: string, t: string)
    requires |t| <= |s| && !(t <= s)
    ensures (exists i :: OccursAt(s, t, i)) <==> (exists i :: OccursAt(s[1..], t, i))
  {
    forall i | OccursAt(s[1..], t, i) ensures OccursAt(s, t, i + 1) {
      assert s[1..][i..i + |t|] == s[i + 1..i + 1 + |t|];
    }
    forall i | OccursAt(s, t, i) ensures OccursAt(s[1..], t, i - 1) {
      assert s[1..][i - 1..i - 1 + |t|] == s[i..i + |t|];
    }
  }

  /** The empty substring occurs in every string. */
  lemma ContainsEmpty(s: string)
    ensures Contains(s, "")
  {
    assert OccursAt(s, "", 0);
  }

  /** Go's `reflect.DeepEqual` on two label maps, written out as an
      order-independent comparison: both nil, or both non-nil with the same
      keys and the same value under every key. A nil map never equals a
      non-nil one, even an empty one. */
  function DeepEqualLabels(a: Labels, b: Labels): (eq: bool)
    ensures eq <==> a == b
  {
    match (a, b)
    case (None, None) => true
    case (Some(x), Some(y)) =>
      var same := x.Keys == y.Keys && forall k :: k in x ==> x[k] == y[k];
      assert same ==> x == y;
      same
    case _ => false
  }
}
