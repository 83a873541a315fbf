/**
 * The project header controls: choosing the warning and endpoint of a
 * permission change, and the project view-model whose observable fields
 * (watch count and flag, dashboard membership, DOI and ARK) are updated
 * optimistically around server requests.
 *
 * Knockout observables are plain fields; computed observables are functions
 * reading those fields.  A JavaScript identifier that is null, undefined or
 * empty is the empty string here: the source only tests its truthiness and
 * concatenates it.
 */
module NodeControl {
  import opened Common

  const PUBLIC := "public"
  const PRIVATE := "private"
  const PROJECT := "project"
  const COMPONENT := "component"

  /** An HTTP request the view-model issues; `body` is the JSON object sent. */
  datatype Request = Request(verb: string, url: string, body: map<string, string>)

  // ---------------------------------------------------------------------
  // Permission change
  // ---------------------------------------------------------------------

  /** The keys of the modal language table. */
  datatype MessageKey =
    | MakeProjectPublicWarning
    | MakeComponentPublicWarning
    | MakeProjectPrivateWarning
    | MakeComponentPrivateWarning

  /** The keys of the permission endpoint table. */
  datatype UrlKey = MakePublic | MakePrivate

  predicate IsPublicWarning(k: MessageKey) {
    k == MakeProjectPublicWarning || k == MakeComponentPublicWarning
  }

  /** The warning key for a change to `permissions` on a node of `nodeType`;
      every pair other than the three named ones falls to the last key. */
  function SelectMessageKey(permissions: string, nodeType: string): (k: MessageKey)
    ensures k == MakeProjectPublicWarning <==> permissions == PUBLIC && nodeType == PROJECT
    ensures k == MakeComponentPublicWarning <==> permissions == PUBLIC && nodeType == COMPONENT
    ensures k == MakeProjectPrivateWarning <==> permissions == PRIVATE && nodeType == PROJECT
    ensures k == MakeComponentPrivateWarning <==>
              !(permissions == PUBLIC && (nodeType == PROJECT || nodeType == COMPONENT))
              && !(permissions == PRIVATE && nodeType == PROJECT)
  {
    if permissions == PUBLIC && nodeType == PROJECT then MakeProjectPublicWarning
    else if permissions == PUBLIC && nodeType == COMPONENT then MakeComponentPublicWarning
    else if permissions == PRIVATE && nodeType == PROJECT then MakeProjectPrivateWarning
    else MakeComponentPrivateWarning
  }

  /** The endpoint key: public exactly when the new permission is "public". */
  function SelectUrlKey(permissions: string): (k: UrlKey)
    ensures k == MakePublic <==> permissions == PUBLIC
    ensures k == MakePrivate <==> permissions != PUBLIC
  {
    if permissions == PUBLIC then MakePublic else MakePrivate
  }

  /** For a project or a component, the warning speaks of going public
      exactly when the request goes to the public endpoint. */
  lemma WarningAgreesWithEndpoint(permissions: string, nodeType: string)
    requires nodeType == PROJECT || nodeType == COMPONENT
    requires permissions == PUBLIC || permissions == PRIVATE
    ensures IsPublicWarning(SelectMessageKey(permissions, nodeType)) <==> SelectUrlKey(permissions) == MakePublic
  {
  }

  /** For any other node type, making it public shows the component-private
      warning while the request still goes to the public endpoint. */
  lemma UnknownNodeTypeGoingPublicWarnsAsPrivate(nodeType: string)
    requires nodeType != PROJECT && nodeType != COMPONENT
    ensures SelectMessageKey(PUBLIC, nodeType) == MakeComponentPrivateWarning
    ensures SelectUrlKey(PUBLIC) == MakePublic
  {
  }

  function Message(k: MessageKey): string {
    match k
    case MakeProjectPublicWarning =>
      "Once a project is made public, there is no way to guarantee that "
      + "access to the data it contains can be completely prevented. Users "
      + "should assume that once a project is made public, it will always "
      + "be public. Are you absolutely sure you would like to continue?"
    case MakeProjectPrivateWarning =>
      "Making a project private will prevent users from viewing it on this site, "
      + "but will have no impact on external sites, including Google's cache. "
      + "Would you like to continue?"
    case MakeComponentPublicWarning =>
      "Once a component is made public, there is no way to guarantee that "
      + "access to the data it contains can be completely prevented. Users "
      + "should assume that one a component is made public, it will always "
      + "be public. The rest of the project, including other components, "
      + "will not be made public. Are you absolutely sure you would like to continue?"
    case MakeComponentPrivateWarning =>
      "Making a component private will prevent users from viewing it on this site, "
      + "but will have no impact on external sites, including Google's cache. "
      + "Would you like to continue?"
  }

  /** The endpoint table, built from the node's API URL. */
  function PermissionUrl(nodeApiUrl: string, k: UrlKey): string {
    match k
    case MakePublic => nodeApiUrl + "permissions/public/"
    case MakePrivate => nodeApiUrl + "permissions/private/"
  }

  const ALERT_OPEN := "<div class=\"alert alert-warning\">"
  const ALERT_CLOSE := "</div>"

  /** Each item enclosed in `open` and `close`, in item order. */
  function Wrapped(items: seq<string>, open: string, close: string): string
    decreases |items|
  {
    if items == [] then ""
    else Wrapped(items[..|items| - 1], open, close) + (open + items[|items| - 1] + close)
  }

  /** One warning alert per addon prompt. */
  function AlertBlocks(prompts: seq<string>): string {
    Wrapped(prompts, ALERT_OPEN, ALERT_CLOSE)
  }

  /** Unfolds one step: the last item's block comes after the others. */
  lemma WrappedSnoc(p: seq<string>, last: string, open: string, close: string)
    ensures Wrapped(p + [last], open, close) == Wrapped(p, open, close) + (open + last + close)
  {
    var q := p + [last];
    assert q[..|q| - 1] == p;
  }

  /** The blocks of two lists placed one after the other. */
  lemma {:induction false} WrappedAppend(a: seq<string>, b: seq<string>, open: string, close: string)
    ensures Wrapped(a + b, open, close) == Wrapped(a, open, close) + Wrapped(b, open, close)
    decreases |b|
  {
    if b == [] {
      assert a + b == a;
    } else {
      var b', last := b[..|b| - 1], b[|b| - 1];
      var block := open + last + close;
      calc {
        Wrapped(a + b, open, close);
        { assert a + b == (a + b') + [last]; WrappedSnoc(a + b', last, open, close); }
        Wrapped(a + b', open, close) + block;
        { WrappedAppend(a, b', open, close); }
        (Wrapped(a, open, close) + Wrapped(b', open, close)) + block;
        Wrapped(a, open, close) + (Wrapped(b', open, close) + block);
        { assert b == b' + [last]; WrappedSnoc(b', last, open, close); }
        Wrapped(a, open, close) + Wrapped(b, open, close);
      }
    }
  }

  /** The first item's block comes first, followed by those of the rest. */
  lemma WrappedCons(item: string, rest: seq<string>, open: string, close: string)
    ensures Wrapped([item] + rest, open, close) == (open + item + close) + Wrapped(rest, open, close)
  {
    calc {
      Wrapped([item] + rest, open, close);
      { WrappedAppend([item], rest, open, close); }
      Wrapped([item], open, close) + Wrapped(rest, open, close);
      { assert [item][..0] == []; }
      (open + item + close) + Wrapped(rest, open, close);
    }
  }

  /** The alert text of two prompt lists is the concatenation of theirs. */
  lemma AlertBlocksAppend(a: seq<string>, b: seq<string>)
    ensures AlertBlocks(a + b) == AlertBlocks(a) + AlertBlocks(b)
  {
    WrappedAppend(a, b, ALERT_OPEN, ALERT_CLOSE);
  }

  /** The first prompt's alert comes first, followed by those of the rest. */
  lemma AlertBlocksCons(prompt: string, rest: seq<string>)
    ensures AlertBlocks([prompt] + rest) == ALERT_OPEN + prompt + ALERT_CLOSE + AlertBlocks(rest)
  {
    WrappedCons(prompt, rest, ALERT_OPEN, ALERT_CLOSE);
  }

  /** The loop that accumulates the alert blocks of the before-public prompts. */
  method BuildAlerts(prompts: seq<string>) returns (alerts: string)
    ensures alerts == AlertBlocks(prompts)
  {
    alerts := "";
    var i := 0;
    while i < |prompts|
      invariant 0 <= i <= |prompts|
      invariant alerts == AlertBlocks(prompts[..i])
    {
      assert prompts[..i + 1] == prompts[..i] + [prompts[i]];
      WrappedSnoc(prompts[..i], prompts[i], ALERT_OPEN, ALERT_CLOSE);
      alerts := alerts + ALERT_OPEN + prompts[i] + ALERT_CLOSE;
      i := i + 1;
    }
    assert prompts[..i] == prompts;
  }

  /** What a permission change led to. */
  datatype PermissionOutcome =
    | PromptsUnavailable    // the before-public request failed: no dialog opens
    | Declined(shown: string)
    | Requested(shown: string, request: Request, reloaded: bool)

  /**
   * A permission change.  Going public first fetches the addon prompts
   * (`prompts`); the dialog opens only when they arrive.  `confirmed` is the
   * user's answer and `change` the answer to the permission request, after
   * which a success reloads the page.
   */
  method SetPermissions(nodeApiUrl: string, permissions: string, nodeType: string,
                        prompts: Reply<seq<string>>, confirmed: bool, change: Reply<()>)
    returns (outcome: PermissionOutcome)
    ensures outcome.PromptsUnavailable? <==> permissions == PUBLIC && prompts.Fail?
    ensures permissions == PUBLIC && prompts.Ok? ==>
              outcome.shown == AlertBlocks(prompts.body) + Message(SelectMessageKey(permissions, nodeType))
    ensures permissions != PUBLIC ==> outcome.shown == Message(SelectMessageKey(permissions, nodeType))
    ensures outcome.Requested? <==> !outcome.PromptsUnavailable? && confirmed
    ensures outcome.Requested? ==>
              outcome.request == Request("POST", PermissionUrl(nodeApiUrl, SelectUrlKey(permissions)),
                                         map["permissions" := permissions])
              && (outcome.reloaded <==> change.Ok?)
  {
    var msgKey := SelectMessageKey(permissions, nodeType);
    var urlKey := SelectUrlKey(permissions);
    var message := Message(msgKey);
    var shown: string;
    if permissions == PUBLIC {
      match prompts
      case Fail =>
        return PromptsUnavailable;
      case Ok(addonMessages) =>
        var alerts := BuildAlerts(addonMessages);
        shown := alerts + message;
    } else {
      shown := message;
    }
    if confirmed {
      var request := Request("POST", PermissionUrl(nodeApiUrl, urlKey), map["permissions" := permissions]);
      outcome := Requested(shown, request, change.Ok?);
    } else {
      outcome := Declined(shown);
    }
  }

  /** A change to private shows the private warning of the node's type:
      the project one for a project, the component one for anything else. */
  lemma PrivateChangeShowsBaseMessage(nodeType: string)
    ensures SelectMessageKey(PRIVATE, nodeType) ==
              (if nodeType == PROJECT then MakeProjectPrivateWarning else MakeComponentPrivateWarning)
  {
  }

  // ---------------------------------------------------------------------
  // Small pure helpers the view-model uses
  // ---------------------------------------------------------------------

  /** `Array.prototype.indexOf`: the first index of `x`, or -1. */
  function IndexOf(s: seq<string>, x: string): (r: int)
    ensures -1 <= r < |s|
    ensures r == -1 <==> x !in s
    ensures 0 <= r ==> s[r] == x && x !in s[..r]
  {
    if s == [] then -1
    else if s[0] == x then 0
    else
      var r := IndexOf(s[1..], x);
      if r == -1 then -1
      else
        assert s[..r + 1] == [s[0]] + s[1..][..r];
        r + 1
  }

  /** The characters `$.trim` strips: JavaScript's white space and line terminators. */
  predicate IsJsWhitespace(c: char) {
    || c == ' ' || c == '\t' || c == '\n' || c == '\r' || c == '\U{B}' || c == '\U{C}'
    || c == '\U{A0}' || c == '\U{1680}' || ('\U{2000}' <= c <= '\U{200A}')
    || c == '\U{2028}' || c == '\U{2029}' || c == '\U{202F}' || c == '\U{205F}'
    || c == '\U{3000}' || c == '\U{FEFF}'
  }

  predicate AllWhitespace(s: string) {
    forall i :: 0 <= i < |s| ==> IsJsWhitespace(s[i])
  }

  function TrimStart(s: string): string {
    if s != [] && IsJsWhitespace(s[0]) then TrimStart(s[1..]) else s
  }

  function TrimEnd(s: string): string {
    if s != [] && IsJsWhitespace(s[|s| - 1]) then TrimEnd(s[..|s| - 1]) else s
  }

  function Trim(s: string): string {
    TrimEnd(TrimStart(s))
  }

  lemma {:induction false} TrimStartEmpty(s: string)
    ensures TrimStart(s) == "" <==> AllWhitespace(s)
    ensures TrimStart(s) != "" ==> !IsJsWhitespace(TrimStart(s)[0])
  {
    if s != [] && IsJsWhitespace(s[0]) {
      TrimStartEmpty(s[1..]);
      assert AllWhitespace(s) <==> AllWhitespace(s[1..]) by {
        if AllWhitespace(s[1..]) {
          forall i | 0 <= i < |s| ensures IsJsWhitespace(s[i]) {
            if i > 0 { assert s[i] == s[1..][i - 1]; }
          }
        }
      }
    }
  }

  lemma {:induction false} TrimEndEmpty(s: string)
    ensures TrimEnd(s) == "" <==> AllWhitespace(s)
  {
    if s != [] && IsJsWhitespace(s[|s| - 1]) {
      var t := s[..|s| - 1];
      TrimEndEmpty(t);
      assert AllWhitespace(s) <==> AllWhitespace(t) by {
        if AllWhitespace(t) {
          forall i | 0 <= i < |s| ensures IsJsWhitespace(s[i]) {
            if i < |s| - 1 { assert s[i] == t[i]; }
          }
        }
      }
    }
  }

  /** A string trims to nothing exactly when it is all white space. */
  lemma TrimEmptyIffBlank(s: string)
    ensures Trim(s) == "" <==> AllWhitespace(s)
  {
    TrimStartEmpty(s);
    TrimEndEmpty(TrimStart(s));
  }

  const BLANK_TITLE := "Title cannot be blank."

  /** The title editor's validator: an error message, or None to accept. */
  function ValidateTitle(value: string): (error: Option<string>)
    ensures error.Some? <==> AllWhitespace(value)
    ensures error.Some? ==> error.value == BLANK_TITLE
  {
    TrimEmptyIffBlank(value);
    if Trim(value) == "" then Some(BLANK_TITLE) else None
  }

  const DOI_URL_PREFIX := "http://ezid.cdlib.org/id/doi:"
  const ARK_URL_PREFIX := "http://ezid.cdlib.org/id/ark:/"

  // ---------------------------------------------------------------------
  // The project view-model
  // ---------------------------------------------------------------------

  /** The `node` part of the settings payload the header is built from. */
  datatype NodeData = NodeData(
    id: string, apiUrl: string, doi: string, ark: string, watchedCount: int,
    inDashboard: bool, description: string, title: string, category: string,
    isRegistration: bool, isPublic: bool, nodeType: string)

  /** The `user` part of the settings payload. */
  datatype UserData = UserData(
    isWatching: bool, dashboardId: string, canEdit: bool, permissions: seq<string>,
    username: string, isContributor: bool)

  /** The server's answer to a watch toggle. */
  datatype WatchReply = WatchReply(watched: bool, watchCount: int)

  /** The server's answer to identifier creation. */
  datatype Identifiers = Identifiers(doi: string, ark: string)

  class ProjectViewModel {
    const id: string
    const apiUrl: string
    const dashboard: string
    const userCanEdit: bool
    const userPermissions: seq<string>
    const description: string
    const title: string
    const category: string
    const isRegistration: bool
    const nodeIsPublic: bool
    const nodeType: string
    const username: string
    const isContributor: bool

    // observables
    var doi: string
    var ark: string
    var watchedCount: int
    var userIsWatching: bool
    var inDashboard: bool

    constructor (node: NodeData, user: UserData)
      ensures id == node.id && apiUrl == node.apiUrl && dashboard == user.dashboardId
      ensures doi == node.doi && ark == node.ark
      ensures watchedCount == node.watchedCount && userIsWatching == user.isWatching
      ensures inDashboard == node.inDashboard
      ensures userCanEdit == user.canEdit && userPermissions == user.permissions
      ensures description == node.description && title == node.title && category == node.category
      ensures isRegistration == node.isRegistration && nodeIsPublic == node.isPublic
      ensures nodeType == node.nodeType
      ensures username == user.username && isContributor == user.isContributor
    {
      id := node.id;
      apiUrl := node.apiUrl;
      doi := node.doi;
      ark := node.ark;
      watchedCount := node.watchedCount;
      userIsWatching := user.isWatching;
      inDashboard := node.inDashboard;
      dashboard := user.dashboardId;
      userCanEdit := user.canEdit;
      userPermissions := user.permissions;
      description := node.description;
      title := node.title;
      category := node.category;
      isRegistration := node.isRegistration;
      nodeIsPublic := node.isPublic;
      nodeType := node.nodeType;
      username := user.username;
      isContributor := user.isContributor;
    }

    /** The label of the watch button. */
    function WatchButtonAction(): (action: string)
      reads this
      ensures action == "Unwatch" <==> userIsWatching
      ensures action == "Watch" <==> !userIsWatching
    {
      if userIsWatching then "Unwatch" else "Watch"
    }

    /** Whether the project may be added to the project organizer. */
    function CanBeOrganized(): (b: bool)
      reads this
      ensures b <==> username != "" && (nodeIsPublic || isContributor)
    {
      username != "" && (nodeIsPublic || isContributor)
    }

    function HasIdentifiers(): (b: bool)
      reads this
      ensures b <==> doi != "" && ark != ""
    {
      doi != "" && ark != ""
    }

    /** Eligibility for identifier creation: all four conditions at once. */
    function CanCreateIdentifiers(): (b: bool)
      reads this
      ensures b <==> !(doi != "" && ark != "") && isRegistration && nodeIsPublic
                     && "admin" in userPermissions
    {
      !HasIdentifiers() && isRegistration && nodeIsPublic && IndexOf(userPermissions, "admin") != -1
    }

    /** The DOI link, or None (`null`) without a DOI; the identifier can be
        read back after the fixed prefix. */
    function DoiUrl(): (url: Option<string>)
      reads this
      ensures url.Some? <==> doi != ""
      ensures url.Some? ==> |url.value| > |DOI_URL_PREFIX|
                            && url.value[..|DOI_URL_PREFIX|] == DOI_URL_PREFIX
                            && url.value[|DOI_URL_PREFIX|..] == doi
    {
      if doi != "" then Some(DOI_URL_PREFIX + doi) else None
    }

    /** The ARK link, or None (`null`) without an ARK. */
    function ArkUrl(): (url: Option<string>)
      reads this
      ensures url.Some? <==> ark != ""
      ensures url.Some? ==> |url.value| > |ARK_URL_PREFIX|
                            && url.value[..|ARK_URL_PREFIX|] == ARK_URL_PREFIX
                            && url.value[|ARK_URL_PREFIX|..] == ark
    {
      if ark != "" then Some(ARK_URL_PREFIX + ark) else None
    }

    /** Add to the project organizer: the flag is set at once and cleared
        again if the request fails. */
    method AddToDashboard(reply: Reply<()>) returns (request: Request)
      modifies this`inDashboard
      ensures request == Request("POST", "/api/v1/pointer/", map["toNodeID" := dashboard, "pointerID" := id])
      ensures inDashboard <==> reply.Ok?
    {
      inDashboard := true;
      request := Request("POST", "/api/v1/pointer/", map["toNodeID" := dashboard, "pointerID" := id]);
      if reply.Fail? {
        inDashboard := false;
      }
    }

    /** Remove from the project organizer: the flag is cleared at once and
        set again if the request fails. */
    method RemoveFromDashboard(reply: Reply<()>) returns (request: Request)
      modifies this`inDashboard
      ensures request == Request("DELETE", "/api/v1/folder/" + dashboard + "/pointer/" + id, map[])
      ensures inDashboard <==> reply.Fail?
    {
      inDashboard := false;
      request := Request("DELETE", "/api/v1/folder/" + dashboard + "/pointer/" + id, map[]);
      if reply.Fail? {
        inDashboard := true;
      }
    }

    /** Toggle watching: the count moves by one toward the toggled state (the
        flag is left alone), and only a successful reply overwrites both. */
    method ToggleWatch(reply: Reply<WatchReply>) returns (request: Request)
      modifies this`watchedCount, this`userIsWatching
      ensures request == Request("POST", apiUrl + "togglewatch/", map[])
      ensures reply.Ok? ==> userIsWatching == reply.body.watched && watchedCount == reply.body.watchCount
      ensures reply.Fail? ==> userIsWatching == old(userIsWatching)
      ensures reply.Fail? ==> watchedCount == old(watchedCount) + (if old(userIsWatching) then -1 else 1)
      ensures reply.Fail? ==> watchedCount != old(watchedCount) && WatchButtonAction() == old(WatchButtonAction())
    {
      if userIsWatching {
        watchedCount := watchedCount - 1;
      } else {
        watchedCount := watchedCount + 1;
      }
      request := Request("POST", apiUrl + "togglewatch/", map[]);
      match reply
      case Ok(data) =>
        userIsWatching := data.watched;
        watchedCount := data.watchCount;
      case Fail =>
    }

    /** Identifier creation: DOI and ARK change only on success. */
    method CreateIdentifiers(reply: Reply<Identifiers>) returns (request: Request)
      modifies this`doi, this`ark
      ensures request == Request("POST", apiUrl + "identifiers/", map[])
      ensures reply.Ok? ==> doi == reply.body.doi && ark == reply.body.ark
      ensures reply.Fail? ==> doi == old(doi) && ark == old(ark)
      ensures reply.Ok? && reply.body.doi != "" && reply.body.ark != "" ==>
                !CanCreateIdentifiers() && DoiUrl() == Some(DOI_URL_PREFIX + reply.body.doi)
                && ArkUrl() == Some(ARK_URL_PREFIX + reply.body.ark)
    {
      request := Request("POST", apiUrl + "identifiers/", map[]);
      match reply
      case Ok(resp) =>
        doi := resp.doi;
        ark := resp.ark;
      case Fail =>
    }

    /** Asks first; creates the identifiers only on confirmation. */
    method AskCreateIdentifiers(confirmed: bool, reply: Reply<Identifiers>) returns (request: Option<Request>)
      modifies this`doi, this`ark
      ensures request.Some? <==> confirmed
      ensures confirmed ==> request.value == Request("POST", apiUrl + "identifiers/", map[])
      ensures confirmed && reply.Ok? ==> doi == reply.body.doi && ark == reply.body.ark
      ensures !confirmed || reply.Fail? ==> doi == old(doi) && ark == old(ark)
    {
      if confirmed {
        var r := CreateIdentifiers(reply);
        request := Some(r);
      } else {
        request := None;
      }
    }

    /** Make the node public, under its own node type. */
    method MakePublic(nodeApiUrl: string, prompts: Reply<seq<string>>, confirmed: bool, change: Reply<()>)
      returns (outcome: PermissionOutcome)
      ensures outcome.PromptsUnavailable? <==> prompts.Fail?
      ensures prompts.Ok? ==>
                outcome.shown == AlertBlocks(prompts.body) + Message(SelectMessageKey(PUBLIC, nodeType))
      ensures outcome.Requested? <==> prompts.Ok? && confirmed
      ensures outcome.Requested? ==>
                outcome.request == Request("POST", nodeApiUrl + "permissions/public/", map["permissions" := PUBLIC])
                && (outcome.reloaded <==> change.Ok?)
    {
      outcome := SetPermissions(nodeApiUrl, PUBLIC, nodeType, prompts, confirmed, change);
    }

    /** Make the node private, under its own node type. */
    method MakePrivate(nodeApiUrl: string, confirmed: bool, change: Reply<()>)
      returns (outcome: PermissionOutcome)
      ensures !outcome.PromptsUnavailable?
      ensures outcome.shown == Message(SelectMessageKey(PRIVATE, nodeType))
      ensures outcome.Requested? <==> confirmed
      ensures outcome.Requested? ==>
                outcome.request == Request("POST", nodeApiUrl + "permissions/private/", map["permissions" := PRIVATE])
                && (outcome.reloaded <==> change.Ok?)
    {
      // no prompts are fetched before going private
      outcome := SetPermissions(nodeApiUrl, PRIVATE, nodeType, Fail, confirmed, change);
    }
  }
}
