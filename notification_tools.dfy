/**
 * The outbound notification log: every send appends one payload, marked
 * SENT, to the `sent` list and returns it.
 */
module NotificationTools {
  import opened Values

  function SmsPayload(phone: string, message: string): Dict
  {
    map["channel" := Str("sms"), "to" := Str(phone), "message" := Str(message), "status" := Str("SENT")]
  }

  function EmailPayload(email: string, subject: string, body: string): Dict
  {
    map["channel" := Str("email"), "to" := Str(email), "subject" := Str(subject), "body" := Str(body), "status" := Str("SENT")]
  }

  function PushPayload(customerId: string, title: string, body: string): Dict
  {
    map["channel" := Str("push"), "customer_id" := Str(customerId), "title" := Str(title), "body" := Str(body), "status" := Str("SENT")]
  }

  /** What `dual_confirm` sends: the email first when an address is given, then the SMS when a phone is given. */
  function DualConfirmPayloads(email: string, phone: string, subject: string, body: string): (r: seq<Dict>)
    ensures |r| == (if email != "" then 1 else 0) + (if phone != "" then 1 else 0)
    ensures email != "" ==> r[0] == EmailPayload(email, subject, body)
    ensures phone != "" ==> r[|r| - 1] == SmsPayload(phone, body)
  {
    (if email != "" then [EmailPayload(email, subject, body)] else [])
    + (if phone != "" then [SmsPayload(phone, body)] else [])
  }

  /** The SMS of a dual confirmation carries the email body and no subject. */
  lemma DualConfirmSmsIsBody(email: string, phone: string, subject: string, body: string)
    requires phone != ""
    ensures var r := DualConfirmPayloads(email, phone, subject, body);
      r[|r| - 1]["message"] == Str(body) && "subject" !in r[|r| - 1]
  {}

  class Notifier {
    var sent: seq<Dict>

    constructor ()
      ensures sent == []
    {
      sent := [];
    }

    method SendSms(phone: string, message: string) returns (p: Dict)
      modifies this
      ensures p == SmsPayload(phone, message) && sent == old(sent) + [p]
    {
      p := SmsPayload(phone, message);
      sent := sent + [p];
    }

    method SendEmail(email: string, subject: string, body: string) returns (p: Dict)
      modifies this
      ensures p == EmailPayload(email, subject, body) && sent == old(sent) + [p]
    {
      p := EmailPayload(email, subject, body);
      sent := sent + [p];
    }

    method SendPush(customerId: string, title: string, body: string) returns (p: Dict)
      modifies this
      ensures p == PushPayload(customerId, title, body) && sent == old(sent) + [p]
    {
      p := PushPayload(customerId, title, body);
      sent := sent + [p];
    }

    /** `dual_confirm`; a missing contact is the empty string. The log grows by exactly what is returned. */
    method DualConfirm(email: string, phone: string, subject: string, body: string) returns (outputs: seq<Dict>)
      modifies this
      ensures outputs == DualConfirmPayloads(email, phone, subject, body)
      ensures sent == old(sent) + outputs
    {
      outputs := [];
      if email != "" {
        var p := SendEmail(email, subject, body);
        outputs := outputs + [p];
      }
      if phone != "" {
        var p := SendSms(phone, body);
        outputs := outputs + [p];
      }
    }
  }
}
