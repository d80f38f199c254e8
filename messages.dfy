/** The three notification texts the controllers send, and a reader that
    recovers the event kind and pod name from a text. */
module Messages {
  import opened Kube

  /** Which transition a notification reports. */
  datatype Kind = Created | Deleted | LabelsChanged

  function Prefix(kind: Kind): (greeting: string)
    ensures |greeting| > 0
  {
    match kind
    case Created => "hello from "
    case Deleted => "goodbye from "
    case LabelsChanged => "things have changed, "
  }

  /** The text `fmt.Sprintf` builds for `kind`: a fixed greeting followed by
      the pod name, inserted verbatim. */
  function Compose(kind: Kind, name: string): (msg: string)
    ensures |msg| > |name| && msg[|msg| - |name|..] == name
    ensures msg[..|msg| - |name|] == Prefix(kind)
  {
    Prefix(kind) + name
  }

  /** Reads a notification text back into its kind and pod name. */
  function Parse(msg: string): (read: Option<(Kind, string)>)
    ensures read.Some? ==> Prefix(read.value.0) <= msg
  {
    if Prefix(Created) <= msg then Some((Created, msg[|Prefix(Created)|..]))
    else if Prefix(Deleted) <= msg then Some((Deleted, msg[|Prefix(Deleted)|..]))
    else if Prefix(LabelsChanged) <= msg then Some((LabelsChanged, msg[|Prefix(LabelsChanged)|..]))
    else None
  }

  /** Every composed text is read back as the kind and name it was built
      from. */
  lemma ParseCompose(kind: Kind, name: string)
    ensures Parse(Compose(kind, name)) == Some((kind, name))
  {
    var msg := Compose(kind, name);
    assert msg[..|Prefix(kind)|] == Prefix(kind);
    assert msg[|Prefix(kind)|..] == name;
    if kind != Created {
      assert msg[0] != 'h';
    }
    if kind == LabelsChanged {
      assert msg[0] != 'g';
    }
  }

  /** Every text the reader accepts is exactly the composition of what it
      read. */
  lemma ComposeParse(msg: string, kind: Kind, name: string)
    requires Parse(msg) == Some((kind, name))
    ensures Compose(kind, name) == msg
  {
    assert msg == msg[..|Prefix(kind)|] + msg[|Prefix(kind)|..];
  }

  /** Distinct events yield distinct texts: the text determines both the
      kind and the pod name. */
  lemma ComposeInjective(k1: Kind, n1: string, k2: Kind, n2: string)
    requires Compose(k1, n1) == Compose(k2, n2)
    ensures k1 == k2 && n1 == n2
  {
    ParseCompose(k1, n1);
    ParseCompose(k2, n2);
  }
}
