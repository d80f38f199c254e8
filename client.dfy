/** The Slack client as the controllers see it: the two calls of the
    `SlackConnector` interface. What the HTTP endpoint answers is outside the
    model, so each call may succeed or fail; a ghost log records every message
    posted together with the reply it got. */
module Client {
  import opened Kube

  /** One `PostMessage` call: the text sent and the error it returned. */
  datatype Post = Post(text: string, reply: Option<Error>)

  class SlackConnector {
    /** Every message posted through this connector, oldest first. */
    ghost var Posts: seq<Post>

    constructor ()
      ensures Posts == []
    {
      Posts := [];
    }

    /** Sends `text` to the channel; the result is the endpoint's verdict,
        `None` for Go's nil error. */
    method PostMessage(text: string) returns (err: Option<Error>)
      modifies this
      ensures Posts == old(Posts) + [Post(text, err)]
    {
      err :| true;
      Posts := Posts + [Post(text, err)];
    }

    /** Probes the endpoint; posts no message. */
    method TestConnection() returns (err: Option<Error>)
      ensures Posts == old(Posts)
    {
      err :| true;
    }
  }
}
