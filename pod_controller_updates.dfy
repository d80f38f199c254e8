/** The update-only controller: its event filter and its reconcile step. */
module PodControllerUpdates {
  import opened Kube
  import opened Client
  import opened Messages

  /** `ignoreEverythingButUpdatesPredicate(podTargetContains)`: an update
      passes when the new object's name contains the target substring, an old
      object is present and the two label maps are not deeply equal; create,
      delete and generic events never pass. The new object cannot be nil here
      (its name is read first), so the source's later nil check on it has no
      counterpart. */
  function IgnoreEverythingButUpdatesPredicate(podTargetContains: string, e: Event): (accept: bool)
    ensures !e.UpdateEvent? ==> !accept
    ensures e.UpdateEvent? && !(exists i :: OccursAt(e.objNew.name, podTargetContains, i)) ==> !accept
    ensures e.UpdateEvent? && e.objOld.None? ==> !accept
    ensures e.UpdateEvent? && e.objOld.Some? && (exists i :: OccursAt(e.objNew.name, podTargetContains, i)) ==>
      (accept <==> e.objOld.value.labels != e.objNew.labels)
  {
    match e
    case UpdateEvent(objOld, objNew) =>
      if Contains(objNew.name, podTargetContains) then
        if objOld.None? then false
        else !DeepEqualLabels(objNew.labels, objOld.value.labels)
      else false
    case DeleteEvent(_) => false
    case CreateEvent(_) => false
    case GenericEvent(_) => false
  }

  /** Going from a nil label map to an empty one counts as a change. */
  lemma NilToEmptyLabelsIsChange(name: string, podTargetContains: string)
    requires Contains(name, podTargetContains)
    ensures IgnoreEverythingButUpdatesPredicate(podTargetContains,
      UpdateEvent(Some(Obj(name, None)), Obj(name, Some(map[]))))
  {
  }

  /** A nil label map on either side does not by itself reject the update:
      against any non-nil map, empty or not, on the other side it counts as a
      change, whichever object is nil-labelled. */
  lemma NilAgainstNonNilLabelsIsChange(oldName: string, newName: string, m: map<string, string>,
                                       podTargetContains: string)
    requires Contains(newName, podTargetContains)
    ensures IgnoreEverythingButUpdatesPredicate(podTargetContains,
      UpdateEvent(Some(Obj(oldName, None)), Obj(newName, Some(m))))
    ensures IgnoreEverythingButUpdatesPredicate(podTargetContains,
      UpdateEvent(Some(Obj(oldName, Some(m))), Obj(newName, None)))
  {
  }

  /** Equal label maps, nil on both sides included, never pass. */
  lemma UnchangedLabelsRejected(objOld: Obj, objNew: Obj, podTargetContains: string)
    requires objOld.labels == objNew.labels
    ensures !IgnoreEverythingButUpdatesPredicate(podTargetContains, UpdateEvent(Some(objOld), objNew))
  {
  }

  class PodReconcilerUpdates {
    const Slack: SlackConnector
    const PodTargetContains: string

    constructor (slack: SlackConnector, podTargetContains: string)
      ensures Slack == slack && PodTargetContains == podTargetContains
    {
      Slack := slack;
      PodTargetContains := podTargetContains;
    }

    /** Handles one request, given what fetching the pod produced. A found
        pod gets one "things have changed" message and the posting error is
        returned; a pod that is gone is ignored and success is returned; any
        other fetch error is returned and nothing is posted. */
    method Reconcile(req: Request, fetched: FetchResult) returns (err: Option<Error>)
      modifies Slack
      ensures fetched.Found? ==>
        Slack.Posts == old(Slack.Posts) + [Post(Compose(LabelsChanged, fetched.pod.name), err)]
      ensures fetched.NotFound? ==> Slack.Posts == old(Slack.Posts) && err == None
      ensures fetched.OtherErr? ==> Slack.Posts == old(Slack.Posts) && err == Some(fetched.err)
    {
      match fetched
      case NotFound =>
        return None;
      case OtherErr(e) =>
        return Some(e);
      case Found(pod) =>
        err := Slack.PostMessage(Compose(LabelsChanged, pod.name));
    }
  }
}
