/**
 * The Slack notifier: builds the webhook payload for a message and a status,
 * refuses to send without a webhook URL, and turns the outcome into the
 * command-line exit code.
 *
 * The POST is an input: `postSucceeds` says whether posting and the HTTP
 * status check complete without raising. The attachment's timestamp (the
 * script file's modification time) is not modelled.
 */
module SlackAlert {
  import opened Common

  const Statuses: map<string, string> := map[
    "success" := ":white_check_mark:",
    "failure" := ":x:",
    "warning" := ":warning:",
    "info" := ":information_source:"]

  /** The emoji for a status; unknown statuses get the information emoji. */
  function Emoji(status: string): (e: string)
    ensures status in Statuses ==> e == Statuses[status]
    ensures status !in Statuses ==> e == ":information_source:"
  {
    if status in Statuses then Statuses[status] else ":information_source:"
  }

  /** Only "success" gets the check mark, and every status other than the three
      alarms, known ("info") or not, gets the information emoji. */
  lemma EmojiDistinguishes(status: string)
    ensures Emoji(status) == ":white_check_mark:" <==> status == "success"
    ensures Emoji(status) == ":x:" <==> status == "failure"
    ensures Emoji(status) == ":warning:" <==> status == "warning"
    ensures Emoji(status) == ":information_source:" <==>
      status != "success" && status != "failure" && status != "warning"
  {
    var e := Emoji(status);
    assert ":white_check_mark:"[1] == 'w' && ":x:"[1] == 'x' && ":warning:"[1] == 'w' &&
           ":information_source:"[1] == 'i';
    assert |":white_check_mark:"| != |":warning:"|;
  }

  /** The attachment colour: green for success, red for failure, amber for
      everything else, "info" included. */
  function Colour(status: string): (c: string)
    ensures c == "good" <==> status == "success"
    ensures c == "danger" <==> status == "failure"
    ensures c == "warning" <==> status != "success" && status != "failure"
  {
    assert "good"[0] != "danger"[0] && "good"[0] != "warning"[0] && "danger"[0] != "warning"[0];
    if status == "success" then "good" else if status == "failure" then "danger" else "warning"
  }

  datatype Attachment = Attachment(color: string, text: string, footer: string)

  datatype Payload = Payload(text: string, username: string, iconEmoji: string, attachments: seq<Attachment>)

  /** The payload posted for a message and a status. */
  function BuildPayload(message: string, status: string): (p: Payload)
    ensures p.text == Emoji(status) + " " + message
    ensures p.iconEmoji == ":hospital:"
    ensures |p.attachments| == 1
    ensures p.attachments[0].text == message && p.attachments[0].color == Colour(status)
  {
    Payload(Emoji(status) + " " + message, "Healthcare Analytics Pipeline", ":hospital:",
            [Attachment(Colour(status), message, "Healthcare Analytics Platform")])
  }

  /** The message can be read back from the top-level text: it is what follows
      the emoji and one space, and it equals the attachment text. */
  lemma MessageReadBack(message: string, status: string)
    ensures var p := BuildPayload(message, status);
      p.text[|Emoji(status)| + 1..] == p.attachments[0].text == message
  {
    var p := BuildPayload(message, status);
    assert p.text == Emoji(status) + " " + message;
  }

  datatype Post = Post(url: string, payload: Payload)

  /** The POST made, if any, and the value `send_slack_alert` returns. */
  datatype SendOutcome = SendOutcome(post: Option<Post>, ok: bool)

  /** `webhook_url or os.getenv('SLACK_WEBHOOK_URL')`. */
  function ChooseWebhook(argument: Option<string>, environment: Option<string>): Option<string> {
    if Truthy(argument) then argument else environment
  }

  /** `send_slack_alert`. */
  function SendSlackAlert(
    message: string, webhookArgument: Option<string>, webhookEnvironment: Option<string>,
    status: string, postSucceeds: bool): (r: SendOutcome)
    ensures r.post.None? <==> !Truthy(webhookArgument) && !Truthy(webhookEnvironment)
    ensures r.post.Some? ==> r.post.value.payload == BuildPayload(message, status)
    ensures r.post.Some? && Truthy(webhookArgument) ==> r.post.value.url == webhookArgument.value
    ensures r.post.Some? && !Truthy(webhookArgument) ==> r.post.value.url == webhookEnvironment.value
    ensures r.ok <==> r.post.Some? && postSucceeds
  {
    var url := ChooseWebhook(webhookArgument, webhookEnvironment);
    if !Truthy(url) then SendOutcome(None, false)
    else
      var post := Post(url.value, BuildPayload(message, status));
      if postSucceeds then SendOutcome(Some(post), true) else SendOutcome(Some(post), false)
  }

  datatype CliOutcome = CliOutcome(exitCode: int, post: Option<Post>)

  /** The command-line entry point. `argv[0]` is the script name, `argv[1]` the
      message and the optional `argv[2]` the status. */
  function SlackCli(argv: seq<string>, webhookEnvironment: Option<string>, postSucceeds: bool): (r: CliOutcome)
    ensures |argv| < 2 ==> r == CliOutcome(1, None)
    ensures |argv| >= 2 ==> (r.post.Some? <==> Truthy(webhookEnvironment))
    ensures r.exitCode == 0 <==> |argv| >= 2 && Truthy(webhookEnvironment) && postSucceeds
    ensures r.exitCode == 0 || r.exitCode == 1
    ensures r.post.Some? ==>
      r.post.value.payload == BuildPayload(argv[1], if |argv| > 2 then argv[2] else "info")
    ensures r.post.Some? ==> r.post.value.url == webhookEnvironment.value
  {
    if |argv| < 2 then CliOutcome(1, None)
    else
      var message := argv[1];
      var status := if |argv| > 2 then argv[2] else "info";
      var sent := SendSlackAlert(message, None, webhookEnvironment, status, postSucceeds);
      CliOutcome(if sent.ok then 0 else 1, sent.post)
  }
}
