/** The create/delete controller: its event filter and its reconcile step. */
module PodController {
  import opened Kube
  import opened Client
  import opened Messages

  /** `ignoreNonTargetPodsPredicate(podTargetContains)`: create and delete
      events pass when the object's name contains the target substring;
      update and generic events never pass. */
  function IgnoreNonTargetPodsPredicate(podTargetContains: string, e: Event): (accept: bool)
    ensures accept <==>
      (e.CreateEvent? || e.DeleteEvent?) && exists i :: OccursAt(e.obj.name, podTargetContains, i)
    ensures e.UpdateEvent? || e.GenericEvent? ==> !accept
  {
    match e
    case DeleteEvent(obj) => Contains(obj.name, podTargetContains)
    case CreateEvent(obj) => Contains(obj.name, podTargetContains)
    case UpdateEvent(_, _) => false
    case GenericEvent(_) => false
  }

  /** With an empty target substring every create and delete event passes. */
  lemma EmptyTargetAcceptsAll(e: Event)
    requires e.CreateEvent? || e.DeleteEvent?
    ensures IgnoreNonTargetPodsPredicate("", e)
  {
    ContainsEmpty(e.obj.name);
  }

  class PodReconciler {
    const Slack: SlackConnector
    const PodTargetContains: string

    constructor (slack: SlackConnector, podTargetContains: string)
      ensures Slack == slack && PodTargetContains == podTargetContains
    {
      Slack := slack;
      PodTargetContains := podTargetContains;
    }

    /** Handles one request, given what fetching the pod produced. A found
        pod is greeted by its name; a pod that is gone is bid goodbye by the
        request's name; any other fetch error is returned and nothing is
        posted. At most one message goes out, and a posting error is
        returned as it came. */
    method Reconcile(req: Request, fetched: FetchResult) returns (err: Option<Error>)
      modifies Slack
      ensures fetched.Found? ==>
        Slack.Posts == old(Slack.Posts) + [Post(Compose(Created, fetched.pod.name), err)]
      ensures fetched.NotFound? ==>
        Slack.Posts == old(Slack.Posts) + [Post(Compose(Deleted, req.name), err)]
      ensures fetched.OtherErr? ==>
        Slack.Posts == old(Slack.Posts) && err == Some(fetched.err)
      ensures |Slack.Posts| <= |old(Slack.Posts)| + 1
    {
      match fetched
      case OtherErr(e) =>
        err := Some(e);
      case NotFound =>
        var postErr := Slack.PostMessage(Compose(Deleted, req.name));
        if postErr.Some? {
          err := postErr;
        } else {
          err := None;
        }
      case Found(pod) =>
        err := Slack.PostMessage(Compose(Created, pod.name));
    }
  }
}
