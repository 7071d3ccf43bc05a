// Email notification gating (notifier.py): the module-level `email_config`
// record as an object whose fields the operations update, the digest
// timing rule, the alert threshold and the selection of what a digest
// lists. SMTP, MIME and the HTML text are not modelled; the clock and the
// environment variables are parameters.

module Notifier {
  import opened Common
  import opened Insights

  /** Seconds that must have passed before the next digest, per frequency. */
  const DailyInterval: real := 72000.0   // 20 hours
  const WeeklyInterval: real := 518400.0 // 6 days

  const PlaceholderSender: string := "demo@example.com"
  const PlaceholderPassword: string := "placeholder"

  /** Truthiness of an optional string: neither None nor empty. */
  predicate Present(s: Option<string>)
  {
    s.Some? && s.value != ""
  }

  function Abs(x: real): real { if x < 0.0 then -x else x }

  /** The message `send_email` would hand to the mail server. */
  datatype Message = Message(subject: string, sender: Option<string>, recipient: string, body: string)

  /** `insight.get("percent_change", 0)`: only the hiring-change insights
      carry the key. */
  function AlertChange(insight: Insight): (pc: real)
    ensures !(insight.HiringSurge? || insight.HiringDecline?) ==> pc == 0.0
    ensures insight.HiringSurge? || insight.HiringDecline? ==> pc == insight.percentChange
  {
    match insight
    case HiringSurge(_, p) => p
    case HiringDecline(_, p) => p
    case _ => 0.0
  }

  class EmailConfig {
    var enabled: bool
    var smtpServer: string
    var smtpPort: int
    var useTls: bool
    var senderEmail: Option<string>
    var senderPassword: Option<string>
    var recipientEmail: Option<string>
    var frequency: string
    var alertThreshold: int
    /** Time of the last successful send, in seconds. */
    var lastSent: Option<real>

    /** The initial record: disabled, daily, threshold 20, never sent. */
    constructor ()
      ensures !enabled && smtpServer == "smtp.gmail.com" && smtpPort == 587 && useTls
      ensures senderEmail == None && senderPassword == None && recipientEmail == None
      ensures frequency == "daily" && alertThreshold == 20 && lastSent == None
    {
      enabled := false;
      smtpServer := "smtp.gmail.com";
      smtpPort := 587;
      useTls := true;
      senderEmail := None;
      senderPassword := None;
      recipientEmail := None;
      frequency := "daily";
      alertThreshold := 20;
      lastSent := None;
    }

    /** Records the preferences and the credentials read from the
        environment (`envSender`, `envPassword`, each "" when unset).
        Enabling without a recipient fails, with the fields already
        written left in place; enabling without credentials substitutes
        placeholders. */
    method SetupEmailPreferences(email: string, enable: bool, freq: string, threshold: int,
                                 envSender: string, envPassword: string) returns (ok: bool)
      modifies this
      ensures ok <==> !(enable && email == "")
      ensures enabled == enable && recipientEmail == Some(email)
      ensures frequency == freq && alertThreshold == threshold
      ensures ok && enable && (envSender == "" || envPassword == "") ==>
                senderEmail == Some(PlaceholderSender) && senderPassword == Some(PlaceholderPassword)
      ensures !(ok && enable && (envSender == "" || envPassword == "")) ==>
                senderEmail == Some(envSender) && senderPassword == Some(envPassword)
      ensures smtpServer == old(smtpServer) && smtpPort == old(smtpPort)
      ensures useTls == old(useTls) && lastSent == old(lastSent)
    {
      enabled := enable;
      recipientEmail := Some(email);
      frequency := freq;
      alertThreshold := threshold;
      senderEmail := Some(envSender);
      senderPassword := Some(envPassword);
      if enable {
        if email == "" {
          return false;
        }
        if envSender == "" || envPassword == "" {
          senderEmail := Some(PlaceholderSender);
          senderPassword := Some(PlaceholderPassword);
        }
      }
      return true;
    }

    /** Whether a digest is due at time `now` (seconds). */
    function ShouldSendDigest(now: real): (due: bool)
      reads this
      ensures due ==> enabled
      ensures enabled && lastSent == None ==> due
      ensures enabled && lastSent != None && frequency == "daily" ==>
                (due <==> now - lastSent.value > DailyInterval)
      ensures enabled && lastSent != None && frequency == "weekly" ==>
                (due <==> now - lastSent.value > WeeklyInterval)
      ensures lastSent != None && frequency != "daily" && frequency != "weekly" ==> !due
    {
      if !enabled then false
      else if lastSent == None then true
      else if frequency == "daily" then now - lastSent.value > DailyInterval
      else if frequency == "weekly" then now - lastSent.value > WeeklyInterval
      else false
    }

    /** Sends to `recipient`, or to the configured recipient when that is
        absent or empty; fails when disabled or when neither is available.
        A successful send stamps `lastSent` with `now`. */
    method SendEmail(subject: string, body: string, recipient: Option<string>, now: real)
      returns (sent: bool, message: Option<Message>)
      modifies this
      ensures sent <==> old(enabled) && (Present(recipient) || Present(old(recipientEmail)))
      ensures sent <==> message != None
      ensures sent && Present(recipient) ==>
                message == Some(Message(subject, senderEmail, recipient.value, body))
      ensures sent && !Present(recipient) ==>
                message == Some(Message(subject, senderEmail, old(recipientEmail).value, body))
      ensures lastSent == (if sent then Some(now) else old(lastSent))
      ensures sent ==> !ShouldSendDigest(now)
      ensures enabled == old(enabled) && recipientEmail == old(recipientEmail)
      ensures senderEmail == old(senderEmail) && senderPassword == old(senderPassword)
      ensures frequency == old(frequency) && alertThreshold == old(alertThreshold)
      ensures smtpServer == old(smtpServer) && smtpPort == old(smtpPort) && useTls == old(useTls)
    {
      if !enabled {
        return false, None;
      }
      if !Present(recipient) && !Present(recipientEmail) {
        return false, None;
      }
      var to := if Present(recipient) then recipient.value else recipientEmail.value;
      message := Some(Message(subject, senderEmail, to, body));
      lastSent := Some(now);
      sent := true;
    }

    /** Sends an alert about `insight` to the configured recipient when
        notifications are enabled and the magnitude of its percent change
        reaches the threshold (a change exactly at the threshold is sent). */
    method SendHiringAlert(company: string, insight: Insight, now: real) returns (sent: bool)
      modifies this
      ensures sent <==> old(enabled) && Abs(AlertChange(insight)) >= old(alertThreshold) as real
                        && Present(old(recipientEmail))
      ensures lastSent == (if sent then Some(now) else old(lastSent))
      ensures enabled == old(enabled) && recipientEmail == old(recipientEmail)
      ensures senderEmail == old(senderEmail) && senderPassword == old(senderPassword)
      ensures frequency == old(frequency) && alertThreshold == old(alertThreshold)
      ensures smtpServer == old(smtpServer) && smtpPort == old(smtpPort) && useTls == old(useTls)
    {
      if !enabled {
        return false;
      }
      var pc := AlertChange(insight);
      if Abs(pc) < alertThreshold as real {
        return false;
      }
      var subject := "Hiring Alert: " + company + " " + TypeName(KindOf(insight));
      var body := "";
      var message;
      sent, message := SendEmail(subject, body, None, now);
    }
  }

  /** Once a digest is due it stays due as time passes. */
  lemma DigestStaysDue(c: EmailConfig, now: real, later: real)
    requires c.ShouldSendDigest(now) && now <= later
    ensures c.ShouldSendDigest(later)
  {
  }

  /** A weekly digest due is also a daily digest due: the weekly interval is
      the longer one. */
  lemma WeeklyDueImpliesDailyDue(c: EmailConfig, now: real)
    requires c.enabled && c.lastSent != None && c.frequency == "weekly"
    requires c.ShouldSendDigest(now)
    ensures now - c.lastSent.value > DailyInterval
  {
  }

  // ---- What a digest lists -------------------------------------------------

  /** The insight types a digest shows. */
  predicate IsKeyInsight(i: Insight)
  {
    KindOf(i) == HiringSurgeType || KindOf(i) == LeadershipChangesType
    || KindOf(i) == TechnologyFocusType || KindOf(i) == GeographicShiftType
  }

  /** The insights of a key type, in their original order. */
  function KeyInsights(insights: seq<Insight>): (r: seq<Insight>)
    ensures |r| <= |insights|
    ensures forall k | 0 <= k < |r| :: IsKeyInsight(r[k]) && r[k] in insights
  {
    if insights == [] then []
    else
      var rest := KeyInsights(insights[..|insights| - 1]);
      if IsKeyInsight(insights[|insights| - 1]) then rest + [insights[|insights| - 1]] else rest
  }

  /** Every key insight of the input survives the filter. */
  lemma {:induction false} KeyInsightsComplete(insights: seq<Insight>, x: Insight)
    requires x in insights && IsKeyInsight(x)
    ensures x in KeyInsights(insights)
  {
    var n := |insights| - 1;
    if x != insights[n] {
      assert x in insights[..n];
      KeyInsightsComplete(insights[..n], x);
    }
  }

  /** The filter keeps the input order: the `k`-th key insight sits at
      position `pos[k]` of the input, and the positions increase. */
  lemma {:induction false} KeyInsightsInOrder(insights: seq<Insight>) returns (pos: seq<nat>)
    ensures |pos| == |KeyInsights(insights)|
    ensures forall k | 0 <= k < |pos| :: pos[k] < |insights| && insights[pos[k]] == KeyInsights(insights)[k]
    ensures forall k, l | 0 <= k < l < |pos| :: pos[k] < pos[l]
  {
    if insights == [] {
      pos := [];
    } else {
      var n := |insights| - 1;
      var rest := KeyInsights(insights[..n]);
      var p := KeyInsightsInOrder(insights[..n]);
      forall k | 0 <= k < |p|
        ensures p[k] < n && insights[p[k]] == rest[k]
      {
        assert insights[p[k]] == insights[..n][p[k]];
      }
      if IsKeyInsight(insights[n]) {
        assert KeyInsights(insights) == rest + [insights[n]];
        pos := p + [n];
        assert forall k | 0 <= k < |p| :: pos[k] == p[k];
      } else {
        assert KeyInsights(insights) == rest;
        pos := p;
      }
    }
  }

  /** What a digest shows: the first five key insights and the first three
      recommendations. A list given empty shows its placeholder text (None);
      a non-empty insight list with no key insight shows an empty section. */
  datatype DigestContent = DigestContent(insights: Option<seq<Insight>>,
                                         recommendations: Option<seq<Recommendation>>)

  function Digest(insights: seq<Insight>, recommendations: seq<Recommendation>): (d: DigestContent)
    ensures d.insights == None <==> insights == []
    ensures d.insights != None ==>
              d.insights.value <= KeyInsights(insights)
              && |d.insights.value| == Min(5, |KeyInsights(insights)|)
    ensures d.recommendations == None <==> recommendations == []
    ensures d.recommendations != None ==>
              d.recommendations.value <= recommendations
              && |d.recommendations.value| == Min(3, |recommendations|)
  {
    DigestContent(
      if insights == [] then None else Some(Take(KeyInsights(insights), 5)),
      if recommendations == [] then None else Some(Take(recommendations, 3)))
  }

  /** A shown insight is one of the inputs and of a key type; a key insight
      among the first five of them is shown. */
  lemma DigestShowsKeyInsights(insights: seq<Insight>, recommendations: seq<Recommendation>)
    requires insights != []
    ensures var shown := Digest(insights, recommendations).insights.value;
            (forall k | 0 <= k < |shown| :: IsKeyInsight(shown[k]) && shown[k] in insights)
            && (|KeyInsights(insights)| <= 5 ==>
                  forall x | x in insights && IsKeyInsight(x) :: x in shown)
  {
    var shown := Digest(insights, recommendations).insights.value;
    var keys := KeyInsights(insights);
    assert forall k | 0 <= k < |shown| :: shown[k] == keys[k];
    if |keys| <= 5 {
      assert shown == keys;
      forall x | x in insights && IsKeyInsight(x)
        ensures x in shown
      {
        KeyInsightsComplete(insights, x);
      }
    }
  }
}
