/**
 * Where notifications go: the messages posted to the Slack webhook and the
 * mails handed to the SMTP transport, recorded in order. Whether a post or a
 * mail goes through is a parameter; a failed one throws in the source and
 * leaves no record here.
 */
module Sinks {

  datatype Mail = Mail(from: string, to: string, subject: string, text: string)

  class Outbox {
    var slack: seq<string>
    var mails: seq<Mail>

    constructor()
      ensures slack == [] && mails == []
    {
      slack := [];
      mails := [];
    }

    /**
     * src/slack.js `sendSlack(message)`: without a webhook it only logs and
     * resolves; otherwise the post either goes through or throws (false).
     */
    method SendSlack(webhookUrl: string, message: string, delivered: bool) returns (resolved: bool)
      modifies this
      ensures resolved <==> webhookUrl == "" || delivered
      ensures slack == old(slack) + (if webhookUrl != "" && delivered then [message] else [])
      ensures mails == old(mails)
    {
      if webhookUrl == "" {
        resolved := true;
      } else if delivered {
        slack := slack + [message];
        resolved := true;
      } else {
        resolved := false;
      }
    }

    /** Hands one mail to the transport; it is recorded only when it went through. */
    method Deliver(mail: Mail, delivered: bool)
      modifies this
      ensures mails == old(mails) + (if delivered then [mail] else [])
      ensures slack == old(slack)
    {
      if delivered {
        mails := mails + [mail];
      }
    }
  }
}
