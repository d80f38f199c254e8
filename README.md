# slackops pod controllers in Dafny

slackops runs two Kubernetes pod controllers that post Slack messages about
pods whose name contains a configured substring:

- the create/delete controller (`PodReconciler`) lets create and delete events
  of matching pods through its event filter, then greets a pod that exists
  (`hello from <pod>`) or bids goodbye to one that is gone
  (`goodbye from <request name>`);
- the update controller (`PodReconcilerUpdates`) lets through only updates of
  matching pods whose label map changed and whose old object is known, then
  posts `things have changed, <pod>`.

The model has five modules:

- `Kube` (`kube.dfy`): pod objects with a label map that may be Go's nil map
  (`None`, distinct from the empty map), the four event kinds, the reconcile
  request, the outcome of fetching the pod, `strings.Contains` (proved equal to
  "occurs at some index") and `reflect.DeepEqual` on label maps (an explicit
  key-and-value comparison, proved equal to structural equality).
- `Client` (`client.dfy`): the `SlackConnector` interface as a class. The
  endpoint's answer is outside the model, so `PostMessage` may return any error
  or none; a ghost log `Posts` records each posted text with the error it got.
- `Messages` (`messages.dfy`): the three notification texts, with a reader
  that recovers kind and pod name from a text, proving that distinct events give
  distinct texts.
- `PodController` (`pod_controller.dfy`) and `PodControllerUpdates`
  (`pod_controller_updates.dfy`): each controller's filter as a pure function
  and its `Reconcile` as a method on the reconciler class that posts through
  the connector.

The fetch `r.Get(ctx, req.NamespacedName, &pod)` is a call into the cluster
API: its outcome is a parameter of `Reconcile` (`Found(pod)`, `NotFound`, or
another error). The Slack endpoint's reply is chosen nondeterministically
inside `PostMessage`.

The update filter's only nil check that takes effect is on the old object
(controllers/pod_controller_updates.go:56-58). A nil label map does not by
itself reject an update: the label maps are compared with `reflect.DeepEqual`
(line 62), so a nil map against a non-nil one, even an empty one, counts as a
change and passes (`NilToEmptyLabelsIsChange`, `NilAgainstNonNilLabelsIsChange`).
Deeply equal label maps, two nil maps included, are rejected
(`UnchangedLabelsRejected`).

## Model

| member | source | states |
|---|---|---|
| `Kube.Contains` | controllers/pod_controller.go:55-59 | the substring test holds exactly when the target occurs in the name at some index |
| `Kube.ContainsEmpty` | controllers/pod_controller.go:55-59 | the empty target occurs in every name |
| `Kube.DeepEqualLabels` | controllers/pod_controller_updates.go:62 | the key-and-value comparison of two label maps holds exactly when they are structurally equal; a nil map equals only a nil map |
| `Client.SlackConnector.constructor` | controllers/client.go:20-26 | a new connector has posted nothing |
| `Client.SlackConnector.PostMessage` | controllers/client.go:16 | posting appends exactly one entry, the text with the returned error, to the log |
| `Client.SlackConnector.TestConnection` | controllers/client.go:15 | the connectivity probe posts no message |
| `Messages.Compose` | controllers/pod_controller.go:36-47 | a notification text is the greeting of its kind followed by the pod name, inserted verbatim |
| `Messages.ParseCompose` | controllers/pod_controller.go:36-47 | reading a composed text gives back its kind and pod name |
| `Messages.ComposeParse` | controllers/pod_controller_updates.go:47 | every text the reader accepts is the composition of the kind and name it read |
| `Messages.ComposeInjective` | controllers/pod_controller_updates.go:47 | two events with different kinds or pod names never yield the same text |
| `PodController.IgnoreNonTargetPodsPredicate` | controllers/pod_controller.go:52-64 | an event passes exactly when it is a create or delete event whose name contains the target; update and generic events never pass |
| `PodController.EmptyTargetAcceptsAll` | controllers/pod_controller.go:54-60 | with an empty target every create and delete event passes |
| `PodController.PodReconciler.constructor` | controllers/pod_controller.go:19-24 | the reconciler holds the given connector and target |
| `PodController.PodReconciler.Reconcile` | controllers/pod_controller.go:30-49 | found: exactly one `hello from <pod name>` is posted and its error returned; not found: exactly one `goodbye from <request name>` is posted and its error returned; other fetch error: nothing is posted and that error is returned; never more than one message |
| `PodControllerUpdates.IgnoreEverythingButUpdatesPredicate` | controllers/pod_controller_updates.go:51-70 | create, delete and generic events never pass; an update fails when the new name lacks the target or the old object is missing; otherwise it passes exactly when the label maps differ |
| `PodControllerUpdates.NilToEmptyLabelsIsChange` | controllers/pod_controller_updates.go:62 | a nil label map replaced by an empty one passes as a change |
| `PodControllerUpdates.NilAgainstNonNilLabelsIsChange` | controllers/pod_controller_updates.go:56-62 | for any names and any non-nil map, an update with a matching new name whose old labels are nil and new labels are that map passes, and so does the mirror case with the new labels nil: only a missing old object rejects, not a nil label map |
| `PodControllerUpdates.UnchangedLabelsRejected` | controllers/pod_controller_updates.go:62 | equal label maps, nil on both sides included, never pass |
| `PodControllerUpdates.PodReconcilerUpdates.constructor` | controllers/pod_controller_updates.go:20-25 | the reconciler holds the given connector and target |
| `PodControllerUpdates.PodReconcilerUpdates.Reconcile` | controllers/pod_controller_updates.go:32-49 | found: exactly one `things have changed, <pod name>` is posted and its error returned; not found: nothing is posted and success is returned; other fetch error: nothing is posted and that error is returned |

## Left out

- HTTP transport of the Slack client (`makeReq`, the JSON encoding in `PostMessage`, the request headers, draining the response body): foreign `net/http`, `encoding/json` and `ioutil` code; the model keeps only the interface, whose calls succeed or fail.
- `SetupWithManager` and the controller-runtime manager, builder and event dispatch: framework wiring; the filters are modelled as functions of one event.
- The `ctrl.Result` return value: both controllers always return its zero value, so `Reconcile` returns only the error.
- The cluster fetch `r.Get`, the `client.Client` embedding, `Scheme` and `context.Context`: calls into the cluster API; the fetch outcome is a parameter.
- Logging (`l.Info`, `l.Error`): it has no effect on what is posted or returned.
- Nil event objects: the create and delete closures read the object's name (controllers/pod_controller.go:55,59), and the update closure reads the new object's name (controllers/pod_controller_updates.go:55) before its nil check at line 59, so a nil object there panics; the model makes these objects always present and does not model the panic. The other closures return false without reading their object, so nothing is lost for them.
- Byte-level strings: Go strings are byte sequences and `strings.Contains` compares bytes, while the model's strings are sequences of characters; for valid UTF-8 the two substring tests agree, and pod names are ASCII (DNS-1123 names), so `Kube.Contains` loses nothing for them.
- Concurrency and retries: they belong to controller-runtime's reconcile loop.
