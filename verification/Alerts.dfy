/** The webhook payload, its validation gate and its projection to a notification
    (internal/alerts/model.go, internal/alerts/validation.go, internal/notify/model.go). */
module Alerts {
  import opened Utf8

  const FIRING := "firing"
  const RESOLVED := "resolved"
  const PAYLOAD_VERSION := "4"
  const MAX_STRING_LENGTH := 4096

  type Labels = map<string, string>

  /** Times are nanoseconds counted from the zero time, so the zero time is 0. */
  type Time = int

  datatype Alert = Alert(
    status: string,
    labels: Labels,
    annotations: Labels,
    startsAt: Time,
    endsAt: Time,
    generatorURL: string,
    fingerprint: string)

  datatype AlertGroup = AlertGroup(
    receiver: string,
    status: string,
    alerts: seq<Alert>,
    groupLabels: Labels,
    commonLabels: Labels,
    commonAnnotations: Labels,
    externalURL: string,
    version: string,
    groupKey: string,
    truncatedAlerts: int)

  datatype Notification = Notification(
    groupKey: string,
    status: string,
    receiver: string,
    alerts: seq<Alert>,
    groupLabels: Labels,
    commonLabels: Labels,
    commonAnnotations: Labels,
    externalURL: string,
    alertsCount: int,
    truncatedAlerts: int,
    createdAt: Time)

  /** The two sentinel errors of the gate; the messages are not modelled. */
  datatype Verdict = Passed | InvalidPayload | PayloadTooLarge

  // ----- lengths: the source counts bytes of the UTF-8 encoding, not characters

  function ByteLength(s: string): nat {
    if s == [] then 0 else |EncodeChar(s[0])| + ByteLength(s[1..])
  }

  lemma {:induction false} ByteLengthCountsBytes(s: string)
    ensures ByteLength(s) == |Encode(s)|
  {
    if s != "" {
      ByteLengthCountsBytes(s[1..]);
    }
  }

  predicate Bounded(s: string) {
    ByteLength(s) <= MAX_STRING_LENGTH
  }

  /** What indexing a map yields in Go: a missing key stands for the empty string. */
  function ValueAt(m: Labels, k: string): (v: string)
    ensures k in m ==> v == m[k]
    ensures k !in m ==> v == ""
  {
    if k in m then m[k] else ""
  }

  // ----- what the gate promises, stated without reference to its order of checks

  predicate LegalStatus(s: string) {
    s == FIRING || s == RESOLVED
  }

  ghost predicate BoundedMap(m: Labels) {
    forall k | k in m :: Bounded(k) && Bounded(m[k])
  }

  predicate ValidFields(a: Alert) {
    && a.fingerprint != ""
    && LegalStatus(a.status)
    && ValueAt(a.labels, "alertname") != ""
    && Bounded(a.fingerprint)
    && Bounded(a.generatorURL)
  }

  ghost predicate ValidAlert(a: Alert) {
    ValidFields(a) && BoundedMap(a.labels) && BoundedMap(a.annotations)
  }

  ghost predicate ValidAlerts(alerts: seq<Alert>) {
    forall i | 0 <= i < |alerts| :: ValidAlert(alerts[i])
  }

  /** Everything that still holds of a payload once it has become a notification. */
  ghost predicate ValidContent(groupKey: string, receiver: string, status: string, externalURL: string,
                               alerts: seq<Alert>, maxAlerts: int)
  {
    && groupKey != ""
    && receiver != ""
    && LegalStatus(status)
    && Bounded(groupKey)
    && Bounded(receiver)
    && Bounded(externalURL)
    && 1 <= |alerts| <= maxAlerts
    && ValidAlerts(alerts)
  }

  ghost predicate ValidGroup(g: AlertGroup, maxAlerts: int) {
    && g.version == PAYLOAD_VERSION
    && ValidContent(g.groupKey, g.receiver, g.status, g.externalURL, g.alerts, maxAlerts)
  }

  ghost predicate ValidNotification(n: Notification, maxAlerts: int) {
    && n.alertsCount == |n.alerts|
    && ValidContent(n.groupKey, n.receiver, n.status, n.externalURL, n.alerts, maxAlerts)
  }

  // ----- the gate itself

  /** One visiting order of a `range` loop over a map: every key, once. */
  ghost predicate Enumerates(order: seq<string>, m: Labels) {
    && (forall k :: k in order <==> k in m)
    && forall i, j | 0 <= i < j < |order| :: order[i] != order[j]
  }

  /** The visiting orders that one run of `validateAlert` happens to use. */
  datatype Visit = Visit(labels: seq<string>, annotations: seq<string>)

  ghost predicate VisitsOf(visits: seq<Visit>, alerts: seq<Alert>) {
    && |visits| == |alerts|
    && forall i | 0 <= i < |alerts| ::
         Enumerates(visits[i].labels, alerts[i].labels) && Enumerates(visits[i].annotations, alerts[i].annotations)
  }

  lemma {:induction false} EnumerationExists(keys: set<string>) returns (order: seq<string>)
    ensures forall k :: k in order <==> k in keys
    ensures forall i, j | 0 <= i < j < |order| :: order[i] != order[j]
  {
    order := [];
    if keys != {} {
      var k :| k in keys;
      var front := EnumerationExists(keys - {k});
      order := front + [k];
    }
  }

  /** A `range` loop has some visiting order, so what is said of all of them is not about nothing. */
  lemma {:induction false} VisitsExist(alerts: seq<Alert>) returns (visits: seq<Visit>)
    ensures VisitsOf(visits, alerts)
  {
    visits := [];
    if alerts != [] {
      var n := |alerts| - 1;
      var front := VisitsExist(alerts[..n]);
      var labels := EnumerationExists(alerts[n].labels.Keys);
      var annotations := EnumerationExists(alerts[n].annotations.Keys);
      visits := front + [Visit(labels, annotations)];
      assert forall i | 0 <= i < n :: alerts[i] == alerts[..n][i];
    }
  }

  function ValidateMapLengths(m: Labels, order: seq<string>): (r: Verdict)
    requires forall k | k in order :: k in m
    ensures r.Passed? <==> forall k | k in order :: Bounded(k) && Bounded(m[k])
    ensures !r.InvalidPayload?
  {
    if order == [] then Passed
    else if !Bounded(order[0]) then PayloadTooLarge
    else if !Bounded(m[order[0]]) then PayloadTooLarge
    else
      assert forall k | k in order :: k == order[0] || k in order[1..];
      ValidateMapLengths(m, order[1..])
  }

  function ValidateFields(a: Alert): (r: Verdict)
    ensures r.Passed? <==> ValidFields(a)
  {
    if a.fingerprint == "" then InvalidPayload
    else if a.status == "" then InvalidPayload
    else if a.status != FIRING && a.status != RESOLVED then InvalidPayload
    else if ValueAt(a.labels, "alertname") == "" then InvalidPayload
    else if !Bounded(a.fingerprint) then PayloadTooLarge
    else if !Bounded(a.generatorURL) then PayloadTooLarge
    else Passed
  }

  function ValidateAlert(a: Alert, visit: Visit): Verdict
    requires Enumerates(visit.labels, a.labels) && Enumerates(visit.annotations, a.annotations)
  {
    var fields := ValidateFields(a);
    if !fields.Passed? then fields
    else
      var labels := ValidateMapLengths(a.labels, visit.labels);
      if !labels.Passed? then labels else ValidateMapLengths(a.annotations, visit.annotations)
  }

  lemma VisitsOfTail(alerts: seq<Alert>, visits: seq<Visit>)
    requires VisitsOf(visits, alerts) && alerts != []
    ensures VisitsOf(visits[1..], alerts[1..])
    ensures Enumerates(visits[0].labels, alerts[0].labels) && Enumerates(visits[0].annotations, alerts[0].annotations)
  {
  }

  function ValidateAlerts(alerts: seq<Alert>, visits: seq<Visit>): Verdict
    requires VisitsOf(visits, alerts)
  {
    if alerts == [] then Passed
    else
      VisitsOfTail(alerts, visits);
      var first := ValidateAlert(alerts[0], visits[0]);
      if !first.Passed? then first else ValidateAlerts(alerts[1..], visits[1..])
  }

  /** The checks of `ValidatePayload` before its loop over the alerts. */
  function ValidateEnvelope(g: AlertGroup, maxAlerts: int): Verdict {
    if g.groupKey == "" then InvalidPayload
    else if g.receiver == "" then InvalidPayload
    else if g.status == "" then InvalidPayload
    else if g.status != FIRING && g.status != RESOLVED then InvalidPayload
    else if !Bounded(g.groupKey) then PayloadTooLarge
    else if !Bounded(g.receiver) then PayloadTooLarge
    else if !Bounded(g.externalURL) then PayloadTooLarge
    else if g.version != PAYLOAD_VERSION then InvalidPayload
    else if |g.alerts| == 0 then InvalidPayload
    else if |g.alerts| > maxAlerts then PayloadTooLarge
    else Passed
  }

  function ValidatePayload(g: AlertGroup, maxAlerts: int, visits: seq<Visit>): Verdict
    requires VisitsOf(visits, g.alerts)
  {
    var envelope := ValidateEnvelope(g, maxAlerts);
    if !envelope.Passed? then envelope else ValidateAlerts(g.alerts, visits)
  }

  // ----- the gate lets through exactly the valid payloads

  lemma ValidateMapLengthsExact(m: Labels, order: seq<string>)
    requires Enumerates(order, m)
    ensures ValidateMapLengths(m, order).Passed? <==> BoundedMap(m)
  {
  }

  lemma ValidateAlertExact(a: Alert, visit: Visit)
    requires Enumerates(visit.labels, a.labels) && Enumerates(visit.annotations, a.annotations)
    ensures ValidateAlert(a, visit).Passed? <==> ValidAlert(a)
  {
    ValidateMapLengthsExact(a.labels, visit.labels);
    ValidateMapLengthsExact(a.annotations, visit.annotations);
    assert ValidateFields(a).Passed? <==> ValidFields(a);
  }

  lemma ValidAlertsSplit(alerts: seq<Alert>)
    requires alerts != []
    ensures ValidAlerts(alerts) <==> ValidAlert(alerts[0]) && ValidAlerts(alerts[1..])
  {
    if ValidAlert(alerts[0]) && ValidAlerts(alerts[1..]) {
      forall i | 0 <= i < |alerts| ensures ValidAlert(alerts[i]) {
        if i > 0 {
          assert alerts[i] == alerts[1..][i - 1];
        }
      }
    }
  }

  lemma {:induction false} ValidateAlertsExact(alerts: seq<Alert>, visits: seq<Visit>)
    requires VisitsOf(visits, alerts)
    ensures ValidateAlerts(alerts, visits).Passed? <==> ValidAlerts(alerts)
  {
    if alerts != [] {
      ValidAlertsSplit(alerts);
      ValidateAlertExact(alerts[0], visits[0]);
      ValidateAlertsExact(alerts[1..], visits[1..]);
    }
  }

  /** `ValidatePayload` returns nil exactly on the valid payloads. */
  lemma ValidatePayloadExact(g: AlertGroup, maxAlerts: int, visits: seq<Visit>)
    requires VisitsOf(visits, g.alerts)
    ensures ValidatePayload(g, maxAlerts, visits).Passed? <==> ValidGroup(g, maxAlerts)
  {
    ValidateAlertsExact(g.alerts, visits);
  }

  // ----- the same in plain terms

  /** The alert has a label "alertname", and it is not empty. */
  predicate Named(a: Alert) {
    "alertname" in a.labels && a.labels["alertname"] != ""
  }

  predicate AllNamed(alerts: seq<Alert>) {
    forall i | 0 <= i < |alerts| :: Named(alerts[i])
  }

  predicate Fits(s: string) {
    |Encode(s)| <= 4096
  }

  lemma FitsIsBounded(s: string)
    ensures Fits(s) <==> Bounded(s)
  {
    ByteLengthCountsBytes(s);
  }

  ghost predicate FittingMap(m: Labels) {
    forall k | k in m :: Fits(k) && Fits(m[k])
  }

  ghost predicate PlainlyValid(a: Alert) {
    && a.fingerprint != "" && (a.status == "firing" || a.status == "resolved") && Named(a)
    && Fits(a.fingerprint) && Fits(a.generatorURL) && FittingMap(a.labels) && FittingMap(a.annotations)
  }

  lemma FittingIsBounded(m: Labels)
    ensures FittingMap(m) <==> BoundedMap(m)
  {
    forall k | k in m ensures (Fits(k) <==> Bounded(k)) && (Fits(m[k]) <==> Bounded(m[k])) {
      FitsIsBounded(k);
      FitsIsBounded(m[k]);
    }
  }

  lemma PlainAlert(a: Alert)
    ensures PlainlyValid(a) <==> ValidAlert(a)
  {
    FitsIsBounded(a.fingerprint);
    FitsIsBounded(a.generatorURL);
    FittingIsBounded(a.labels);
    FittingIsBounded(a.annotations);
  }

  lemma PlainEnvelope(g: AlertGroup)
    ensures Fits(g.groupKey) <==> Bounded(g.groupKey)
    ensures Fits(g.receiver) <==> Bounded(g.receiver)
    ensures Fits(g.externalURL) <==> Bounded(g.externalURL)
  {
    FitsIsBounded(g.groupKey);
    FitsIsBounded(g.receiver);
    FitsIsBounded(g.externalURL);
  }

  lemma PlainAlerts(alerts: seq<Alert>)
    ensures ValidAlerts(alerts) <==> forall i | 0 <= i < |alerts| :: PlainlyValid(alerts[i])
  {
    forall i | 0 <= i < |alerts| ensures PlainlyValid(alerts[i]) <==> ValidAlert(alerts[i]) {
      PlainAlert(alerts[i]);
    }
  }

  /** What the gate lets through: version 4, a key, a receiver, a status that is firing or resolved, at least one alert
      and at most `maxAlerts`, each with a fingerprint, such a status and a name, and every string of key, receiver,
      URL and alerts at most 4096 bytes of UTF-8 long. */
  lemma PassesExactly(g: AlertGroup, maxAlerts: int, visits: seq<Visit>)
    requires VisitsOf(visits, g.alerts)
    ensures ValidatePayload(g, maxAlerts, visits).Passed?
            <==> && g.version == "4" && g.groupKey != "" && g.receiver != ""
                 && (g.status == "firing" || g.status == "resolved")
                 && Fits(g.groupKey) && Fits(g.receiver) && Fits(g.externalURL)
                 && 1 <= |g.alerts| <= maxAlerts
                 && forall i | 0 <= i < |g.alerts| :: PlainlyValid(g.alerts[i])
  {
    ValidatePayloadExact(g, maxAlerts, visits);
    PlainEnvelope(g);
    PlainAlerts(g.alerts);
  }

  lemma ValidAlertsAreNamed(alerts: seq<Alert>)
    requires ValidAlerts(alerts)
    ensures AllNamed(alerts)
  {
    forall i | 0 <= i < |alerts| ensures Named(alerts[i]) {
      assert ValidAlert(alerts[i]);
    }
  }

  /** A payload that passes names every alert; one within the limits that leaves an alert without a name is invalid. */
  lemma NamelessIsInvalid(g: AlertGroup, maxAlerts: int, visits: seq<Visit>)
    requires VisitsOf(visits, g.alerts)
    ensures ValidatePayload(g, maxAlerts, visits).Passed? ==> AllNamed(g.alerts)
    ensures WithinLimits(g, maxAlerts) && !AllNamed(g.alerts) ==> ValidatePayload(g, maxAlerts, visits).InvalidPayload?
  {
    ErrorClassNamesADefect(g, maxAlerts, visits);
    if ValidatePayload(g, maxAlerts, visits).Passed? {
      ValidatePayloadExact(g, maxAlerts, visits);
      ValidAlertsAreNamed(g.alerts);
    }
  }

  lemma {:induction false} AlertsVerdictIgnoresOrder(alerts: seq<Alert>, v: seq<Visit>, w: seq<Visit>)
    requires VisitsOf(v, alerts) && VisitsOf(w, alerts)
    ensures ValidateAlerts(alerts, v) == ValidateAlerts(alerts, w)
  {
    if alerts != [] {
      ValidateAlertExact(alerts[0], v[0]);
      ValidateAlertExact(alerts[0], w[0]);
      AlertsVerdictIgnoresOrder(alerts[1..], v[1..], w[1..]);
    }
  }

  /** The class of error does not depend on the order in which Go happens to walk the label maps. */
  lemma VerdictIgnoresOrder(g: AlertGroup, maxAlerts: int, v: seq<Visit>, w: seq<Visit>)
    requires VisitsOf(v, g.alerts) && VisitsOf(w, g.alerts)
    ensures ValidatePayload(g, maxAlerts, v) == ValidatePayload(g, maxAlerts, w)
  {
    AlertsVerdictIgnoresOrder(g.alerts, v, w);
  }

  // ----- the class of the error

  /** Everything the gate asks of an alert apart from lengths. */
  predicate WellFormedAlert(a: Alert) {
    a.fingerprint != "" && LegalStatus(a.status) && ValueAt(a.labels, "alertname") != ""
  }

  ghost predicate AlertWithinLimits(a: Alert) {
    Bounded(a.fingerprint) && Bounded(a.generatorURL) && BoundedMap(a.labels) && BoundedMap(a.annotations)
  }

  predicate WellFormedEnvelope(g: AlertGroup) {
    g.groupKey != "" && g.receiver != "" && LegalStatus(g.status) && g.version == PAYLOAD_VERSION && g.alerts != []
  }

  predicate EnvelopeWithinLimits(g: AlertGroup, maxAlerts: int) {
    Bounded(g.groupKey) && Bounded(g.receiver) && Bounded(g.externalURL) && |g.alerts| <= maxAlerts
  }

  /** Everything it asks of a payload apart from sizes, and the sizes. */
  predicate WellFormed(g: AlertGroup) {
    WellFormedEnvelope(g) && WellFormedAlerts(g.alerts)
  }

  ghost predicate WithinLimits(g: AlertGroup, maxAlerts: int) {
    EnvelopeWithinLimits(g, maxAlerts) && AlertsWithinLimits(g.alerts)
  }

  lemma EnvelopeErrorNamesADefect(g: AlertGroup, maxAlerts: int)
    ensures ValidateEnvelope(g, maxAlerts).InvalidPayload? ==> !WellFormedEnvelope(g)
    ensures ValidateEnvelope(g, maxAlerts).PayloadTooLarge? ==> !EnvelopeWithinLimits(g, maxAlerts)
  {
  }

  lemma AlertErrorNamesADefect(a: Alert, visit: Visit)
    requires Enumerates(visit.labels, a.labels) && Enumerates(visit.annotations, a.annotations)
    ensures ValidateAlert(a, visit).InvalidPayload? ==> !WellFormedAlert(a)
    ensures ValidateAlert(a, visit).PayloadTooLarge? ==> !AlertWithinLimits(a)
  {
    ValidateMapLengthsExact(a.labels, visit.labels);
    ValidateMapLengthsExact(a.annotations, visit.annotations);
  }

  predicate WellFormedAlerts(alerts: seq<Alert>) {
    forall i | 0 <= i < |alerts| :: WellFormedAlert(alerts[i])
  }

  ghost predicate AlertsWithinLimits(alerts: seq<Alert>) {
    forall i | 0 <= i < |alerts| :: AlertWithinLimits(alerts[i])
  }

  lemma HeadAndTail(alerts: seq<Alert>)
    requires alerts != []
    ensures WellFormedAlerts(alerts) ==> WellFormedAlert(alerts[0]) && WellFormedAlerts(alerts[1..])
    ensures AlertsWithinLimits(alerts) ==> AlertWithinLimits(alerts[0]) && AlertsWithinLimits(alerts[1..])
  {
  }

  lemma {:induction false} AlertsErrorNamesADefect(alerts: seq<Alert>, visits: seq<Visit>)
    requires VisitsOf(visits, alerts)
    ensures ValidateAlerts(alerts, visits).InvalidPayload? ==> !WellFormedAlerts(alerts)
    ensures ValidateAlerts(alerts, visits).PayloadTooLarge? ==> !AlertsWithinLimits(alerts)
  {
    if alerts != [] {
      AlertErrorNamesADefect(alerts[0], visits[0]);
      AlertsErrorNamesADefect(alerts[1..], visits[1..]);
      HeadAndTail(alerts);
    }
  }

  lemma ValidIsWellFormedWithinLimits(g: AlertGroup, maxAlerts: int)
    ensures ValidGroup(g, maxAlerts) <==> WellFormed(g) && WithinLimits(g, maxAlerts)
  {
    forall i | 0 <= i < |g.alerts|
      ensures ValidAlert(g.alerts[i]) <==> WellFormedAlert(g.alerts[i]) && AlertWithinLimits(g.alerts[i])
    {
    }
  }

  /** The class of the error is right: "invalid" is said only of payloads that are malformed, "too large" only of
      payloads over some limit. A payload passes exactly if it has neither defect, and one that has defects of one
      kind only gets the class of that kind, in whatever order the checks are made. */
  lemma ErrorClassNamesADefect(g: AlertGroup, maxAlerts: int, visits: seq<Visit>)
    requires VisitsOf(visits, g.alerts)
    ensures ValidatePayload(g, maxAlerts, visits).InvalidPayload? ==> !WellFormed(g)
    ensures ValidatePayload(g, maxAlerts, visits).PayloadTooLarge? ==> !WithinLimits(g, maxAlerts)
    ensures ValidatePayload(g, maxAlerts, visits).Passed? <==> WellFormed(g) && WithinLimits(g, maxAlerts)
  {
    EnvelopeErrorNamesADefect(g, maxAlerts);
    AlertsErrorNamesADefect(g.alerts, visits);
    ValidatePayloadExact(g, maxAlerts, visits);
    ValidIsWellFormedWithinLimits(g, maxAlerts);
  }

  // ----- the first defect decides

  /** An alert is reported as malformed if it is, and as too large only if it is not. */
  lemma AlertVerdictExact(a: Alert, visit: Visit)
    requires Enumerates(visit.labels, a.labels) && Enumerates(visit.annotations, a.annotations)
    ensures ValidateAlert(a, visit).InvalidPayload? <==> !WellFormedAlert(a)
    ensures ValidateAlert(a, visit).PayloadTooLarge? <==> WellFormedAlert(a) && !AlertWithinLimits(a)
  {
    ValidateMapLengthsExact(a.labels, visit.labels);
    ValidateMapLengthsExact(a.annotations, visit.annotations);
  }

  /** Alert `i` is the first that is not valid. */
  ghost predicate FirstBad(alerts: seq<Alert>, i: nat) {
    i < |alerts| && !ValidAlert(alerts[i]) && forall j | 0 <= j < i :: ValidAlert(alerts[j])
  }

  lemma FirstBadInTail(alerts: seq<Alert>, i: nat)
    requires FirstBad(alerts, i) && i > 0
    ensures ValidAlert(alerts[0]) && FirstBad(alerts[1..], i - 1)
  {
    assert forall j | 0 <= j < i - 1 :: alerts[1..][j] == alerts[j + 1];
  }

  lemma ValidateHead(alerts: seq<Alert>, visits: seq<Visit>)
    requires VisitsOf(visits, alerts) && alerts != []
    ensures VisitsOf(visits[1..], alerts[1..])
    ensures Enumerates(visits[0].labels, alerts[0].labels) && Enumerates(visits[0].annotations, alerts[0].annotations)
    ensures ValidateAlerts(alerts, visits) == if ValidAlert(alerts[0]) then ValidateAlerts(alerts[1..], visits[1..])
                                              else ValidateAlert(alerts[0], visits[0])
  {
    VisitsOfTail(alerts, visits);
    ValidateAlertExact(alerts[0], visits[0]);
  }

  lemma {:induction false} FirstBadAlertDecides(alerts: seq<Alert>, visits: seq<Visit>, i: nat)
    requires VisitsOf(visits, alerts) && FirstBad(alerts, i)
    ensures ValidateAlerts(alerts, visits) == if WellFormedAlert(alerts[i]) then PayloadTooLarge else InvalidPayload
    decreases i
  {
    ValidateHead(alerts, visits);
    if i == 0 {
      AlertVerdictExact(alerts[0], visits[0]);
    } else {
      FirstBadInTail(alerts, i);
      FirstBadAlertDecides(alerts[1..], visits[1..], i - 1);
    }
  }

  /** A payload with defects of both kinds: a missing or wrong identity is reported first, then a size of the envelope,
      then version and emptiness, then the number of alerts, and then the first bad alert decides. */
  lemma FirstDefectDecides(g: AlertGroup, maxAlerts: int, visits: seq<Visit>, i: nat)
    requires VisitsOf(visits, g.alerts)
    ensures var v := ValidatePayload(g, maxAlerts, visits);
            && (g.groupKey == "" || g.receiver == "" || !(g.status == "firing" || g.status == "resolved")
                ==> v.InvalidPayload?)
            && (g.groupKey != "" && g.receiver != "" && (g.status == "firing" || g.status == "resolved") ==>
                  if !(Fits(g.groupKey) && Fits(g.receiver) && Fits(g.externalURL)) then v.PayloadTooLarge?
                  else if g.version != "4" || g.alerts == [] then v.InvalidPayload?
                  else if |g.alerts| > maxAlerts then v.PayloadTooLarge?
                  else FirstBad(g.alerts, i) ==>
                         v == if WellFormedAlert(g.alerts[i]) then PayloadTooLarge else InvalidPayload)
  {
    PlainEnvelope(g);
    if FirstBad(g.alerts, i) {
      FirstBadAlertDecides(g.alerts, visits, i);
    }
  }

  // ----- projection

  /** The notification says what the payload says, field by field, and counts its alerts. */
  predicate Carries(n: Notification, g: AlertGroup) {
    && n.groupKey == g.groupKey
    && n.status == g.status
    && n.receiver == g.receiver
    && n.alerts == g.alerts && n.alertsCount == |g.alerts|
    && n.groupLabels == g.groupLabels
    && n.commonLabels == g.commonLabels
    && n.commonAnnotations == g.commonAnnotations
    && n.externalURL == g.externalURL
    && n.truncatedAlerts == g.truncatedAlerts
  }

  function NewNotification(g: AlertGroup, now: Time): (n: Notification)
    ensures Carries(n, g) && n.createdAt == now
    ensures forall maxAlerts :: ValidNotification(n, maxAlerts) <== ValidGroup(g, maxAlerts)
  {
    Notification(g.groupKey, g.status, g.receiver, g.alerts, g.groupLabels, g.commonLabels, g.commonAnnotations,
                 g.externalURL, |g.alerts|, g.truncatedAlerts, now)
  }
}
