/** The report form of the web client: the observer's star row and tier, the
    submit guard, the request payload, the error message built from a rejected
    submission, and the submit handler's effect on the form's state. The
    translation function, the clock, image reading, the HTTP exchange and
    `JSON.stringify` are parameters. */
module ShipReportForm {
  import opened Wrappers
  import opened Text

  datatype Star = Filled | Empty

  function Min(a: int, b: int): int
  {
    if a <= b then a else b
  }

  function Max(a: int, b: int): int
  {
    if a >= b then a else b
  }

  const MaxDisplayedStars := 5

  /** The row `renderStars` builds: `min(score, 5)` filled stars (none when
      that is negative), then empty stars from that count up to 5. */
  function StarRow(score: int): (row: seq<Star>)
  {
    var full := Min(score, MaxDisplayedStars);
    seq(Max(full, 0), _ => Filled) + seq(MaxDisplayedStars - full, _ => Empty)
  }

  /** `renderStars`: the two loops of the component. */
  method RenderStars(score: int) returns (stars: seq<Star>)
    ensures stars == StarRow(score)
  {
    var fullStars := Min(score, MaxDisplayedStars);
    stars := [];
    var i := 0;
    while i < fullStars
      invariant 0 <= i <= Max(fullStars, 0)
      invariant stars == seq(i, _ => Filled)
    {
      stars := stars + [Filled];
      i := i + 1;
    }
    i := fullStars;
    while i < MaxDisplayedStars
      invariant fullStars <= i <= MaxDisplayedStars
      invariant stars == seq(Max(fullStars, 0), _ => Filled) + seq(i - fullStars, _ => Empty)
    {
      stars := stars + [Empty];
      i := i + 1;
    }
  }

  function FilledCount(row: seq<Star>): (n: nat)
    ensures n <= |row|
  {
    if |row| == 0 then 0 else (if row[0] == Filled then 1 else 0) + FilledCount(row[1..])
  }

  lemma {:induction false} FilledCountOfBlocks(a: nat, b: nat)
    ensures FilledCount(seq(a, _ => Filled) + seq(b, _ => Empty)) == a
    decreases a + b
  {
    var row := seq(a, _ => Filled) + seq(b, _ => Empty);
    if a > 0 {
      assert row[1..] == seq(a - 1, _ => Filled) + seq(b, _ => Empty);
      FilledCountOfBlocks(a - 1, b);
    } else if b > 0 {
      assert row[1..] == seq(0, _ => Filled) + seq(b - 1, _ => Empty);
      FilledCountOfBlocks(0, b - 1);
    }
  }

  /** For a score of zero or more the row has exactly five stars, the first
      `min(score, 5)` filled and the rest empty. A negative score gives no
      filled star and `5 - score` empty ones. */
  lemma StarRowShape(score: int)
    ensures score >= 0 ==> |StarRow(score)| == 5 && FilledCount(StarRow(score)) == Min(score, 5)
    ensures forall i :: 0 <= i < |StarRow(score)| ==> (StarRow(score)[i] == Filled <==> i < Min(score, 5))
    ensures score < 0 ==> |StarRow(score)| == 5 - score && FilledCount(StarRow(score)) == 0
  {
    var full := Min(score, MaxDisplayedStars);
    FilledCountOfBlocks(Max(full, 0), MaxDisplayedStars - full);
  }

  /** The observer status shown under the stars. */
  datatype Tier =
    | EstablishCredentials
    | QualifiedMaritimeObserver
    | VerifiedCoastalMonitor
    | MaritimeSecuritySpecialist
  {
    /** The translation key the status text is looked up by. */
    function Key(): string
    {
      match this
      case EstablishCredentials => "establishCredentials"
      case QualifiedMaritimeObserver => "qualifiedMaritimeObserver"
      case VerifiedCoastalMonitor => "verifiedCoastalMonitor"
      case MaritimeSecuritySpecialist => "maritimeSecuritySpecialist"
    }

    function Rank(): nat
    {
      match this
      case EstablishCredentials => 0
      case QualifiedMaritimeObserver => 1
      case VerifiedCoastalMonitor => 2
      case MaritimeSecuritySpecialist => 3
    }
  }

  function ObserverTier(score: int): Tier
  {
    if score > 0 then
      if score >= 5 then MaritimeSecuritySpecialist
      else if score >= 3 then VerifiedCoastalMonitor
      else QualifiedMaritimeObserver
    else EstablishCredentials
  }

  /** The tier thresholds, stated as ranges of the score. */
  lemma TierRanges(score: int)
    ensures ObserverTier(score) == MaritimeSecuritySpecialist <==> score >= 5
    ensures ObserverTier(score) == VerifiedCoastalMonitor <==> 3 <= score < 5
    ensures ObserverTier(score) == QualifiedMaritimeObserver <==> 0 < score < 3
    ensures ObserverTier(score) == EstablishCredentials <==> score <= 0
  {
  }

  /** A higher score never gives a lower tier. */
  lemma TierMonotone(a: int, b: int)
    requires a <= b
    ensures ObserverTier(a).Rank() <= ObserverTier(b).Rank()
  {
  }

  /** The tier can be read off the filled stars: five is the top tier, three or
      four the second, one or two the third, none the entry tier. */
  lemma TierMatchesStars(score: int)
    ensures var n := FilledCount(StarRow(score));
      && (ObserverTier(score) == MaritimeSecuritySpecialist <==> n == 5)
      && (ObserverTier(score) == VerifiedCoastalMonitor <==> 3 <= n <= 4)
      && (ObserverTier(score) == QualifiedMaritimeObserver <==> 1 <= n <= 2)
      && (ObserverTier(score) == EstablishCredentials <==> n == 0)
  {
    StarRowShape(score);
  }

  /** The submit button is disabled while a submission runs and while there is
      neither an image nor a location. */
  predicate SubmitDisabled(isSubmitting: bool, hasImage: bool, hasLocation: bool)
  {
    isSubmitting || (!hasImage && !hasLocation)
  }

  /** The handler's guard: neither an image nor a location. */
  predicate NothingToReport(hasImage: bool, hasLocation: bool)
  {
    !hasImage && !hasLocation
  }

  /** The guard blocks exactly the submissions the idle button refuses. */
  lemma GuardMatchesButton(hasImage: bool, hasLocation: bool)
    ensures NothingToReport(hasImage, hasLocation) <==> SubmitDisabled(false, hasImage, hasLocation)
    ensures NothingToReport(hasImage, hasLocation) ==> SubmitDisabled(true, hasImage, hasLocation)
  {
  }

  datatype User = User(id: string, name: string, score: int)

  /** A position as the browser reports it, each coordinate already rendered. */
  datatype Location = Location(latitude: string, longitude: string)

  /** The JSON body posted to the submission endpoint. None is a key left out,
      except for `picture_url`, which is sent as null. */
  datatype Payload = Payload(
    sourceAccountId: string,
    timestamp: string,
    latitude: Option<string>,
    longitude: Option<string>,
    pictureUrl: Option<string>,
    description: Option<string>,
    activityType: Option<string>,
    vesselHeading: Option<string>,
    vesselRegistry: Option<string>)

  /** JavaScript's `s || undefined` on a string. */
  function OrUndefined(s: string): (r: Option<string>)
    ensures r == None <==> s == ""
    ensures r.Some? ==> r.value == s
  {
    if s == "" then None else Some(s)
  }

  /** Who the report is submitted as: the user's id, or "guest" with no user or
      an empty id. */
  function AccountId(user: Option<User>): (id: string)
    ensures id == "guest" <==> user.None? || user.value.id == "" || user.value.id == "guest"
    ensures id != "guest" ==> user.Some? && id == user.value.id
  {
    if user.Some? && user.value.id != "" then user.value.id else "guest"
  }

  function BuildPayload(user: Option<User>, timestamp: string, location: Option<Location>, pictureUrl: Option<string>,
                        description: string, activityType: string, vesselHeading: string, vesselRegistry: string): Payload
  {
    Payload(
      AccountId(user), timestamp,
      if location.Some? then Some(location.value.latitude) else None,
      if location.Some? then Some(location.value.longitude) else None,
      pictureUrl,
      OrUndefined(description), OrUndefined(activityType), OrUndefined(vesselHeading), OrUndefined(vesselRegistry))
  }

  /** An empty optional text is left out of the payload and a filled one is
      sent as typed; without a location both coordinates are left out. */
  lemma PayloadDefaults(user: Option<User>, timestamp: string, location: Option<Location>, pictureUrl: Option<string>,
                        description: string, activityType: string, vesselHeading: string, vesselRegistry: string)
    ensures var p := BuildPayload(user, timestamp, location, pictureUrl, description, activityType, vesselHeading, vesselRegistry);
      && p.sourceAccountId == AccountId(user) && p.timestamp == timestamp && p.pictureUrl == pictureUrl
      && (p.description == None <==> description == "")
      && (p.activityType == None <==> activityType == "")
      && (p.vesselHeading == None <==> vesselHeading == "")
      && (p.vesselRegistry == None <==> vesselRegistry == "")
      && (p.description.Some? ==> p.description.value == description)
      && (p.latitude == None <==> location == None)
      && (p.longitude == None <==> location == None)
  {
  }

  /** A parsed JSON value. */
  datatype Json =
    | JNull
    | JBool(b: bool)
    | JNumber(n: int)
    | JString(s: string)
    | JArray(items: seq<Json>)
    | JObject(members: map<string, Json>)

  /** JavaScript truthiness of a property read; None is `undefined`. */
  predicate Truthy(v: Option<Json>)
  {
    match v
    case None => false
    case Some(JNull) => false
    case Some(JBool(b)) => b
    case Some(JNumber(n)) => n != 0
    case Some(JString(s)) => s != ""
    case Some(_) => true
  }

  /** Reading property `key`: a TypeError on null, `undefined` when the value
      has no such own property. */
  function Property(j: Json, key: string): Result<Option<Json>, string>
  {
    match j
    case JNull => Err("TypeError")
    case JObject(m) => Ok(if key in m then Some(m[key]) else None)
    case _ => Ok(None)
  }

  /** `String(v)` for a value that `Array.prototype.join` puts in its result. */
  function JsString(j: Json): string
  {
    match j
    case JNull => ""
    case JBool(b) => if b then "true" else "false"
    case JNumber(n) => IntToString(n)
    case JString(s) => s
    case JArray(_) => "[array]"
    case JObject(_) => "[object Object]"
  }

  /** `d.msg || JSON.stringify(d)` for one element of an error array. */
  function ItemMessage(d: Json, stringify: Json -> string): Result<string, string>
  {
    match Property(d, "msg")
    case Err(e) => Err(e)
    case Ok(msg) => Ok(if Truthy(msg) then JsString(msg.value) else stringify(d))
  }

  /** The messages of every element, or the TypeError of the first that is null. */
  function ItemMessages(items: seq<Json>, stringify: Json -> string): (r: Result<seq<string>, string>)
    ensures r.Ok? <==> JNull !in items
    ensures r.Ok? ==> |r.value| == |items|
    ensures r.Ok? ==> forall i :: 0 <= i < |items| ==> r.value[i] == ItemMessage(items[i], stringify).value
  {
    if |items| == 0 then Ok([])
    else match ItemMessage(items[0], stringify)
      case Err(e) => Err(e)
      case Ok(m) =>
        match ItemMessages(items[1..], stringify)
        case Err(e) => Err(e)
        case Ok(ms) => Ok([m] + ms)
  }

  /** The message shown after a rejected submission. `body` is the parsed
      response body (None when it is not JSON). A string `detail` is shown as
      is; an array gives its elements' messages joined with "; "; an object its
      `msg` or its serialisation. Anything else, or any exception on the way,
      leaves the fallback. */
  function ErrorMessage(fallback: string, body: Option<Json>, stringify: Json -> string): (r: string)
    ensures r != fallback ==>
      body.Some? && Property(body.value, "detail").Ok? && Truthy(Property(body.value, "detail").value)
    ensures r != fallback ==>
      var detail := Property(body.value, "detail").value.value;
      detail.JString? || detail.JArray? || detail.JObject?
  {
    if body.None? then fallback
    else match Property(body.value, "detail")
      case Err(_) => fallback
      case Ok(detail) =>
        if !Truthy(detail) then fallback
        else match detail.value
          case JString(s) => s
          case JArray(items) =>
            (match ItemMessages(items, stringify)
             case Err(_) => fallback
             case Ok(ms) => Join(ms, "; "))
          case JObject(m) =>
            var msg := if "msg" in m then Some(m["msg"]) else None;
            if Truthy(msg) then JsString(msg.value) else stringify(detail.value)
          case _ => fallback
  }

  /** The validation error shape the server answers with: an object whose
      `msg` is a non-empty text. */
  function MsgObject(msg: string): Json
  {
    JObject(map["msg" := JString(msg)])
  }

  function MsgObjects(msgs: seq<string>): (r: seq<Json>)
    ensures |r| == |msgs|
  {
    if |msgs| == 0 then [] else [MsgObject(msgs[0])] + MsgObjects(msgs[1..])
  }

  lemma {:induction false} ItemMessagesOfMsgObjects(msgs: seq<string>, stringify: Json -> string)
    requires forall i :: 0 <= i < |msgs| ==> msgs[i] != ""
    ensures ItemMessages(MsgObjects(msgs), stringify) == Ok(msgs)
  {
    if |msgs| > 0 {
      var items := MsgObjects(msgs);
      assert items[0] == MsgObject(msgs[0]);
      assert items[1..] == MsgObjects(msgs[1..]);
      ItemMessagesOfMsgObjects(msgs[1..], stringify);
      assert [msgs[0]] + msgs[1..] == msgs;
    }
  }

  /** An element whose `msg` is missing or falsy (an object without one, a
      number, a text, an array) is shown as its serialisation; only null
      throws. */
  lemma ItemWithoutMsgStringified(d: Json, stringify: Json -> string)
    requires d != JNull
    requires d.JObject? ==> "msg" !in d.members || !Truthy(Some(d.members["msg"]))
    ensures ItemMessage(d, stringify) == Ok(stringify(d))
  {
  }

  /** An element with a truthy `msg` is shown as that value. */
  lemma ItemWithMsgShown(m: map<string, Json>, stringify: Json -> string)
    requires "msg" in m && Truthy(Some(m["msg"]))
    ensures ItemMessage(JObject(m), stringify) == Ok(JsString(m["msg"]))
  {
  }

  /** The body the server sends with a `detail` entry. */
  function DetailBody(detail: Json): Json
  {
    JObject(map["detail" := detail])
  }

  lemma DetailOf(detail: Json)
    ensures Property(DetailBody(detail), "detail") == Ok(Some(detail))
  {
  }

  /** A non-empty text detail is shown verbatim. */
  lemma TextDetailShown(fallback: string, stringify: Json -> string, text: string)
    requires text != ""
    ensures ErrorMessage(fallback, Some(DetailBody(JString(text))), stringify) == text
  {
    DetailOf(JString(text));
  }

  /** A list of validation errors is shown as their messages joined with "; ". */
  lemma ListDetailShown(fallback: string, stringify: Json -> string, msgs: seq<string>)
    requires forall i :: 0 <= i < |msgs| ==> msgs[i] != ""
    ensures ErrorMessage(fallback, Some(DetailBody(JArray(MsgObjects(msgs)))), stringify) == Join(msgs, "; ")
  {
    var detail := JArray(MsgObjects(msgs));
    DetailOf(detail);
    assert Truthy(Some(detail));
    ItemMessagesOfMsgObjects(msgs, stringify);
    assert ErrorMessage(fallback, Some(DetailBody(detail)), stringify)
      == (match ItemMessages(MsgObjects(msgs), stringify)
          case Err(_) => fallback
          case Ok(ms) => Join(ms, "; "));
  }

  /** An error object without a truthy `msg` is shown as its serialisation. */
  lemma ObjectDetailStringified(fallback: string, stringify: Json -> string, m: map<string, Json>)
    requires "msg" !in m || !Truthy(Some(m["msg"]))
    ensures ErrorMessage(fallback, Some(DetailBody(JObject(m))), stringify) == stringify(JObject(m))
  {
    DetailOf(JObject(m));
  }

  /** An array detail without null elements is shown as the messages of its
      elements, each its `msg` or its serialisation, joined with "; ". */
  lemma ArrayDetailJoined(fallback: string, stringify: Json -> string, items: seq<Json>)
    requires JNull !in items
    ensures var ms := ItemMessages(items, stringify);
      ms.Ok? && ErrorMessage(fallback, Some(DetailBody(JArray(items))), stringify) == Join(ms.value, "; ")
  {
    DetailOf(JArray(items));
    assert Truthy(Some(JArray(items)));
  }

  /** A single error object is shown as its message. */
  lemma ObjectDetailShown(fallback: string, stringify: Json -> string, text: string)
    requires text != ""
    ensures ErrorMessage(fallback, Some(DetailBody(MsgObject(text))), stringify) == text
  {
    DetailOf(MsgObject(text));
  }

  /** The fallback stays for a body that is not JSON, a null body, a body
      without `detail`, an empty text detail, a number or boolean detail, and
      a list holding a null. */
  lemma FallbackKept(fallback: string, stringify: Json -> string, items: seq<Json>, n: int, b: bool)
    requires JNull in items
    ensures ErrorMessage(fallback, Some(DetailBody(JNumber(n))), stringify) == fallback
    ensures ErrorMessage(fallback, Some(DetailBody(JBool(b))), stringify) == fallback
    ensures ErrorMessage(fallback, None, stringify) == fallback
    ensures ErrorMessage(fallback, Some(JNull), stringify) == fallback
    ensures ErrorMessage(fallback, Some(JObject(map[])), stringify) == fallback
    ensures ErrorMessage(fallback, Some(DetailBody(JString(""))), stringify) == fallback
    ensures ErrorMessage(fallback, Some(DetailBody(JArray(items))), stringify) == fallback
  {
    DetailOf(JString(""));
    DetailOf(JNumber(n));
    DetailOf(JBool(b));
    DetailOf(JArray(items));
    NullItemFails(items, stringify);
  }

  /** A null element anywhere in the list makes the whole mapping throw. */
  lemma NullItemFails(items: seq<Json>, stringify: Json -> string)
    requires JNull in items
    ensures ItemMessages(items, stringify).Err?
  {
  }

  /** The image as the handler reads it: none chosen, read as a data URL, or
      failing to read. */
  datatype ImageInput = NoImage | ReadAs(dataUrl: string) | Unreadable

  /** How the request ends: it throws, or a response arrives with its status
      and its parsed body (None when the body is not JSON). */
  datatype Exchange = Thrown | Answered(ok: bool, body: Option<Json>)

  /** The form's state as the submit handler leaves it, plus the requests it
      sent and the alerts it raised. */
  class ReportForm {
    var isSubmitting: bool
    var formError: Option<string>
    var isSuccess: bool
    var enrichedReport: Option<Json>
    var sent: seq<Payload>
    var alerts: seq<string>

    constructor()
      ensures !isSubmitting && formError == None && !isSuccess && enrichedReport == None
      ensures sent == [] && alerts == []
    {
      isSubmitting := false;
      formError := None;
      isSuccess := false;
      enrichedReport := None;
      sent := [];
      alerts := [];
    }

    /** `handleSubmit`. `t` translates a key and `stringify` is
        `JSON.stringify`. Every path ends with `isSubmitting` false. */
    method HandleSubmit(user: Option<User>, timestamp: string, image: ImageInput, location: Option<Location>,
                        description: string, activityType: string, vesselHeading: string, vesselRegistry: string,
                        exchange: Exchange, t: string -> string, stringify: Json -> string)
      modifies this
      ensures !isSubmitting
      ensures NothingToReport(image != NoImage, location.Some?) ==>
        && formError == Some(t("eitherImageOrLocationRequired")) && sent == old(sent)
        && alerts == old(alerts) && isSuccess == old(isSuccess) && enrichedReport == old(enrichedReport)
      ensures image == Unreadable ==>
        && formError == None && sent == old(sent) && alerts == old(alerts) + [t("failedToSubmitReport")]
        && isSuccess == old(isSuccess) && enrichedReport == old(enrichedReport)
      ensures !NothingToReport(image != NoImage, location.Some?) && image != Unreadable ==>
        && sent == old(sent) + [BuildPayload(user, timestamp, location, if image.ReadAs? then Some(image.dataUrl) else None,
                                             description, activityType, vesselHeading, vesselRegistry)]
        && (exchange.Thrown? ==> formError == None && alerts == old(alerts) + [t("failedToSubmitReport")]
                                 && isSuccess == old(isSuccess) && enrichedReport == old(enrichedReport))
        && (exchange.Answered? && !exchange.ok ==>
              formError == Some(ErrorMessage(t("failedToSubmitReport"), exchange.body, stringify))
              && alerts == old(alerts) && isSuccess == old(isSuccess) && enrichedReport == old(enrichedReport))
        && (exchange.Answered? && exchange.ok && exchange.body.None? ==>
              formError == None && alerts == old(alerts) + [t("failedToSubmitReport")]
              && isSuccess == old(isSuccess) && enrichedReport == old(enrichedReport))
        && (exchange.Answered? && exchange.ok && exchange.body.Some? ==>
              formError == None && alerts == old(alerts) && isSuccess && enrichedReport == exchange.body)
    {
      isSubmitting := true;
      formError := None;

      if NothingToReport(image != NoImage, location.Some?) {
        formError := Some(t("eitherImageOrLocationRequired"));
        isSubmitting := false;
        return;
      }

      var base64Image: Option<string> := None;
      if image.Unreadable? {
        isSubmitting := false;
        alerts := alerts + [t("failedToSubmitReport")];
        return;
      }
      if image.ReadAs? {
        base64Image := Some(image.dataUrl);
      }

      var apiPayload := BuildPayload(user, timestamp, location, base64Image,
                                     description, activityType, vesselHeading, vesselRegistry);
      sent := sent + [apiPayload];

      match exchange {
        case Thrown =>
          isSubmitting := false;
          alerts := alerts + [t("failedToSubmitReport")];
        case Answered(ok, body) =>
          if !ok {
            var errorMsg := ErrorMessage(t("failedToSubmitReport"), body, stringify);
            formError := Some(errorMsg);
            isSubmitting := false;
          } else if body.None? {
            isSubmitting := false;
            alerts := alerts + [t("failedToSubmitReport")];
          } else {
            enrichedReport := body;
            isSubmitting := false;
            isSuccess := true;
          }
      }
    }
  }
}
