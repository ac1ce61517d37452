/**
 * The model-retraining page: it loads the retraining status and the
 * original-versus-retrained comparison, and offers four buttons (retrain
 * needed, force retrain, switch if better, force switch). Each button POSTs
 * to the backend and turns the reply into a notification. The four endpoint
 * names the page reads from the model service file are parameters here (see
 * `RetrainKeysAbsent`), and so are the readers that pick the fields the page
 * uses out of a JSON reply.
 */
module Retraining {
  import opened Wrappers
  import opened Text
  import Http
  import Routes
  import Frames
  import ModelApi

  /** The four endpoint names: `model_retrain`, `model_switch`, `model_retrain_status`, `model_retrain_compare`. */
  datatype Names = Names(retrain: string, switch: string, status: string, compare: string)

  /** A notification's `type`. */
  datatype Kind = Success | Warning | Info | Error {
    function Name(): string {
      match this
      case Success => "success"
      case Warning => "warning"
      case Info => "info"
      case Error => "error"
    }
  }

  datatype Notification = Notification(message: string, kind: Kind)

  /** The icon shown beside a notification of type `kind`: anything unrecognised gets the information sign. */
  function Icon(kind: string): (icon: string)
    ensures kind == "success" <==> icon == "\U{2705}"
    ensures kind == "error" <==> icon == "\U{274C}"
    ensures kind == "warning" <==> icon == "\U{26A0}\U{FE0F}"
    ensures kind !in {"success", "error", "warning"} <==> icon == "\U{2139}\U{FE0F}"
  {
    if kind == "success" then "\U{2705}"
    else if kind == "error" then "\U{274C}"
    else if kind == "warning" then "\U{26A0}\U{FE0F}"
    else "\U{2139}\U{FE0F}"
  }

  /** The four kinds the page produces get four different icons, and only `Info` gets the default one. */
  lemma IconsOfKinds()
    ensures forall a: Kind, b: Kind :: a != b ==> Icon(a.Name()) != Icon(b.Name())
    ensures forall k: Kind :: Icon(k.Name()) == "\U{2139}\U{FE0F}" <==> k == Info
  {
  }

  /** The endpoint of a retrain or switch button: the name, then `?force=true` for the forcing button. */
  function ActionEndpoint(name: string, force: bool): string {
    name + (if force then "?force=true" else "")
  }

  /** The URL the page POSTs to: `http://localhost:5000/api/` and the endpoint. */
  function ActionUrl(name: string, force: bool): (url: string)
    ensures url == Http.Url(Http.ApiBase, ActionEndpoint(name, force))
  {
    Http.Host + "/api/" + ActionEndpoint(name, force)
  }

  /** A string without '?' has no query string. */
  lemma {:induction false} NoQuery(s: string)
    requires '?' !in s
    ensures Routes.QueryOf(s) == None
    decreases |s|
  {
    if |s| > 0 {
      assert s[0] != '?';
      assert forall c :: c in s[1..] ==> c in s;
      NoQuery(s[1..]);
    }
  }

  /** The request carries the query `force=true` exactly for the forcing buttons, and no query otherwise. */
  lemma ForceQuery(name: string, force: bool)
    requires '?' !in name
    ensures force ==> Routes.QueryOf(ActionUrl(name, force)) == Some("force=true")
    ensures !force ==> Routes.QueryOf(ActionUrl(name, force)) == None
  {
    var head := Http.Host + "/api/" + name;
    assert forall c :: c in Http.Host + "/api/" ==> c != '?';
    assert '?' !in head;
    if force {
      assert ActionUrl(name, force) == head + "?" + "force=true";
      Routes.QueryAfter(head, "force=true");
    } else {
      assert ActionUrl(name, force) == head;
      NoQuery(head);
    }
  }

  /**
   * The `models_status` field of a retrain reply as the page reads it: absent
   * (or not a list), or one flag per model telling whether that entry carries
   * an `error`.
   */
  type RetrainReader<!J> = J -> Http.Access<Option<seq<bool>>>

  /**
   * The fields of a switch reply the page reads: the length of
   * `switched_models` when present, and `message` when present.
   */
  datatype SwitchReply = SwitchReply(switched: Option<nat>, message: Option<string>)

  type SwitchReader<!J> = J -> Http.Access<SwitchReply>

  /**
   * The reply of a button's POST, read: the fields the handler uses, or None
   * when the request fails or the reading throws (a `null` body, or a `null`
   * entry in `models_status`).
   */
  function Answer<J, T>(net: Http.Network<J>, url: string, read: J -> Http.Access<T>): (a: Option<T>)
    ensures a.None? <==> Http.PostJson(net, url).Err? || read(Http.PostJson(net, url).value).Throws?
    ensures a.Some? ==> a.value == read(Http.PostJson(net, url).value).value
  {
    match Http.PostJson(net, url)
    case Err(_) => None
    case Ok(data) =>
      match read(data)
      case Fields(v) => Some(v)
      case Throws => None
  }

  function NoError(failed: bool): bool {
    !failed
  }

  function Failed(failed: bool): bool {
    failed
  }

  /** The notification after a retrain reply. */
  function RetrainNotice(models: Option<seq<bool>>): (n: Notification)
    ensures n.kind == Success <==> models.Some? && |models.value| > 0
    ensures n.kind != Success ==> n == Notification("No models were retrained", Warning)
    ensures n.kind == Success ==> exists k: nat :: k <= |models.value|
                                    && n.message == "Successfully retrained " + NatToString(k) + " models"
  {
    match models
    case Some(flags) =>
      if |flags| > 0 then
        var k := |Frames.Where(flags, NoError)|;
        Notification("Successfully retrained " + NatToString(k) + " models", Success)
      else Notification("No models were retrained", Warning)
    case None => Notification("No models were retrained", Warning)
  }

  /**
   * The count a success notification reports plus the number of entries with
   * an error is the number of models in the reply.
   */
  lemma RetrainCount(flags: seq<bool>)
    requires |flags| > 0
    ensures RetrainNotice(Some(flags)).message
            == "Successfully retrained " + NatToString(|flags| - |Frames.Where(flags, Failed)|) + " models"
  {
    Frames.WhereSplit(flags, NoError, Failed);
  }

  /** When no entry has an error, the notification counts every model. */
  lemma RetrainAllSucceeded(flags: seq<bool>)
    requires |flags| > 0
    requires forall i :: 0 <= i < |flags| ==> !flags[i]
    ensures RetrainNotice(Some(flags)).message == "Successfully retrained " + NatToString(|flags|) + " models"
  {
    Frames.WhereAll(flags, NoError);
  }

  /** The notification after a switch reply. */
  function SwitchNotice(reply: SwitchReply): (n: Notification)
    ensures n.kind == Success <==> reply.switched.Some? && reply.switched.value > 0
    ensures n.kind == Success ==> n.message == "Successfully switched " + NatToString(reply.switched.value) + " models"
    ensures n.kind != Success ==> n.kind == Info
    ensures n.kind == Info && reply.message.Some? && reply.message.value != "" ==> n.message == reply.message.value
    ensures n.kind == Info && (reply.message.None? || reply.message.value == "") ==> n.message == "No models were switched"
  {
    if reply.switched.Some? && reply.switched.value > 0 then
      Notification("Successfully switched " + NatToString(reply.switched.value) + " models", Success)
    else if reply.message.Some? && reply.message.value != "" then Notification(reply.message.value, Info)
    else Notification("No models were switched", Info)
  }

  /** The page's state; `J` is the JSON value of a reply, kept as received. */
  datatype State<J> = State(
    status: Option<J>,
    comparison: Option<J>,
    loading: bool,
    error: Option<string>,
    notification: Option<Notification>)

  const StatusFailure := "Failed to fetch retrain status"

  function Initial<J>(): (s: State<J>)
    ensures s.loading && s.error.None? && s.notification.None?
    ensures s.status.None? && s.comparison.None?
  {
    State(None, None, true, None, None)
  }

  /** `fetchRetrainStatus`: a failure sets the page's error. */
  function FetchStatus<J>(s: State<J>, net: Http.Network<J>, names: Names): (r: State<J>)
    ensures ModelApi.Fetch(net, names.status).Ok? ==> r == s.(status := Some(ModelApi.Fetch(net, names.status).value))
    ensures ModelApi.Fetch(net, names.status).Err? ==> r == s.(error := Some(StatusFailure))
  {
    match ModelApi.Fetch(net, names.status)
    case Ok(v) => s.(status := Some(v))
    case Err(_) => s.(error := Some(StatusFailure))
  }

  /** `fetchComparison`: a failure is only logged. */
  function FetchComparison<J>(s: State<J>, net: Http.Network<J>, names: Names): (r: State<J>)
    ensures ModelApi.Fetch(net, names.compare).Ok? ==> r == s.(comparison := Some(ModelApi.Fetch(net, names.compare).value))
    ensures ModelApi.Fetch(net, names.compare).Err? ==> r == s
  {
    match ModelApi.Fetch(net, names.compare)
    case Ok(v) => s.(comparison := Some(v))
    case Err(_) => s
  }

  /** The first load: status, then comparison, then the spinner goes away. */
  function LoadData<J>(net: Http.Network<J>, names: Names): (r: State<J>)
    ensures !r.loading && r.notification.None?
    ensures r.error.Some? <==> ModelApi.Fetch(net, names.status).Err?
    ensures r.status.Some? <==> ModelApi.Fetch(net, names.status).Ok?
    ensures r.comparison.Some? <==> ModelApi.Fetch(net, names.compare).Ok?
  {
    FetchComparison(FetchStatus(Initial(), net, names), net, names).(loading := false)
  }

  /**
   * `handleRetrain(force)`: a reply the handler reads gives a notification
   * and refreshes both status and comparison; a failed request, an
   * unreadable body, or a reply whose reading throws gives the error
   * notification and refreshes nothing.
   */
  function Retrain<J>(s: State<J>, net: Http.Network<J>, names: Names, read: RetrainReader<J>, force: bool): (r: State<J>)
    ensures !r.loading
    ensures var post := Http.PostJson(net, ActionUrl(names.retrain, force));
            post.Err? || read(post.value).Throws? ==>
              r == s.(loading := false, notification := Some(Notification("Retraining failed", Error)))
    ensures var post := Http.PostJson(net, ActionUrl(names.retrain, force));
            post.Ok? && read(post.value).Fields? ==>
              && r.notification == Some(RetrainNotice(read(post.value).value))
              && r == FetchComparison(FetchStatus(s.(notification := r.notification), net, names), net, names).(loading := false)
  {
    var busy := s.(loading := true);
    match Answer(net, ActionUrl(names.retrain, force), read)
    case Some(models) =>
      var notified := busy.(notification := Some(RetrainNotice(models)));
      FetchComparison(FetchStatus(notified, net, names), net, names).(loading := false)
    case None =>
      busy.(notification := Some(Notification("Retraining failed", Error))).(loading := false)
  }

  /**
   * `handleSwitch(force)`: like retraining, but only the status is refreshed
   * afterwards.
   */
  function Switch<J>(s: State<J>, net: Http.Network<J>, names: Names, read: SwitchReader<J>, force: bool): (r: State<J>)
    ensures !r.loading && r.comparison == s.comparison
    ensures var post := Http.PostJson(net, ActionUrl(names.switch, force));
            post.Err? || read(post.value).Throws? ==>
              r == s.(loading := false, notification := Some(Notification("Model switching failed", Error)))
    ensures var post := Http.PostJson(net, ActionUrl(names.switch, force));
            post.Ok? && read(post.value).Fields? ==>
              && r.notification == Some(SwitchNotice(read(post.value).value))
              && r == FetchStatus(s.(notification := r.notification), net, names).(loading := false)
  {
    var busy := s.(loading := true);
    match Answer(net, ActionUrl(names.switch, force), read)
    case Some(reply) =>
      var notified := busy.(notification := Some(SwitchNotice(reply)));
      FetchStatus(notified, net, names).(loading := false)
    case None =>
      busy.(notification := Some(Notification("Model switching failed", Error))).(loading := false)
  }

  /** A button press. */
  datatype Action = RetrainPress(force: bool) | SwitchPress(force: bool)

  function Press<J>(s: State<J>, net: Http.Network<J>, names: Names, retrainRead: RetrainReader<J>,
                    switchRead: SwitchReader<J>, a: Action): State<J>
  {
    match a
    case RetrainPress(force) => Retrain(s, net, names, retrainRead, force)
    case SwitchPress(force) => Switch(s, net, names, switchRead, force)
  }

  /**
   * The page's error is set only by a failed status fetch and never cleared:
   * after any press it is the old error, or the status failure when that
   * press refreshed the status and the refresh failed.
   */
  lemma ErrorOnlyFromStatus<J>(s: State<J>, net: Http.Network<J>, names: Names, retrainRead: RetrainReader<J>,
                               switchRead: SwitchReader<J>, a: Action)
    ensures var r := Press(s, net, names, retrainRead, switchRead, a);
            r.error == s.error || r.error == Some(StatusFailure)
    ensures s.error.Some? ==> Press(s, net, names, retrainRead, switchRead, a).error.Some?
    ensures ModelApi.Fetch(net, names.status).Ok? ==> Press(s, net, names, retrainRead, switchRead, a).error == s.error
  {
  }

  /** What the page shows: the spinner first, then the error, else the dashboard. */
  datatype View = Loading | ErrorText(message: string) | Dashboard

  function ViewOf<J>(s: State<J>): (v: View)
    ensures v == Loading <==> s.loading
    ensures v.ErrorText? <==> !s.loading && s.error.Some?
    ensures v.ErrorText? ==> v.message == s.error.value
  {
    if s.loading then Loading
    else if s.error.Some? then ErrorText(s.error.value)
    else Dashboard
  }

  /** Once the error shows, every later press leaves it showing. */
  lemma ErrorStays<J>(s: State<J>, net: Http.Network<J>, names: Names, retrainRead: RetrainReader<J>,
                      switchRead: SwitchReader<J>, a: Action)
    requires ViewOf(s).ErrorText?
    ensures ViewOf(Press(s, net, names, retrainRead, switchRead, a)).ErrorText?
  {
    ErrorOnlyFromStatus(s, net, names, retrainRead, switchRead, a);
  }

  /** A press is reported with the error icon exactly when its request failed or its reply could not be read. */
  lemma PressIcon<J>(s: State<J>, net: Http.Network<J>, names: Names, retrainRead: RetrainReader<J>,
                     switchRead: SwitchReader<J>, a: Action)
    ensures var r := Press(s, net, names, retrainRead, switchRead, a);
            var url := ActionUrl(if a.RetrainPress? then names.retrain else names.switch, a.force);
            && r.notification.Some?
            && (Icon(r.notification.value.kind.Name()) == "\U{274C}" <==>
                  if a.RetrainPress? then Answer(net, url, retrainRead).None? else Answer(net, url, switchRead).None?)
  {
  }

  /**
   * The four endpoint keys are not among the keys of the model service
   * file's endpoint object.
   */
  lemma RetrainKeysAbsent()
    ensures "model_retrain" !in ModelApi.Endpoints
    ensures "model_switch" !in ModelApi.Endpoints
    ensures "model_retrain_status" !in ModelApi.Endpoints
    ensures "model_retrain_compare" !in ModelApi.Endpoints
  {
    ModelKeyAbsent("model_retrain");
    ModelKeyAbsent("model_switch");
    ModelKeyAbsent("model_retrain_status");
    ModelKeyAbsent("model_retrain_compare");
  }

  /**
   * A key spelled `mo...` is none of the `march_*` keys, and one whose seventh
   * letter is not `m` is not `model_monitoring`; the other keys start with
   * another letter.
   */
  lemma ModelKeyAbsent(key: string)
    requires |key| > 6 && key[0] == 'm' && key[1] == 'o' && key[6] != 'm'
    ensures key !in ModelApi.Endpoints
  {
    forall i | 0 <= i < |ModelApi.Entries|
      ensures ModelApi.Entries[i].0 != key
    {
      var e := ModelApi.Entries[i].0;
      assert e[0] != 'm' || e[1] != 'o' || e[6] == 'm';
    }
  }
}
