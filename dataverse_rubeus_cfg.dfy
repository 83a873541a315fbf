/**
 * The dataverse file-browser configuration: merging an upload's answer into
 * the grid's items, releasing a study, refreshing a dataverse's state, and
 * the DOI link of a study's citation.
 *
 * Grid items are JavaScript objects: maps from property names to values, a
 * missing key being `undefined`.  The grid and its dialogs are a log of the
 * calls made into them.
 */
module DataverseRubeusCfg {
  import opened Common

  /** A JavaScript value as far as the configuration looks at it.  Plain
      objects (such as a row's `data` and `urls`) are their properties;
      arrays and functions are references, equal only to themselves. */
  datatype JsValue =
    | JsNull | JsBool(b: bool) | JsNum(n: int) | JsStr(s: string)
    | JsObj(props: map<string, JsValue>)
    | JsRef(id: nat)

  type JsObject = map<string, JsValue>

  predicate Truthy(v: JsValue) {
    match v
    case JsNull => false
    case JsBool(b) => b
    case JsNum(n) => n != 0
    case JsStr(s) => s != ""
    case JsObj(_) => true
    case JsRef(_) => true
  }

  // ---------------------------------------------------------------------
  // Upload success
  // ---------------------------------------------------------------------

  predicate FileUpdated(data: JsObject) {
    "actionTaken" in data && data["actionTaken"] == JsStr("file_updated")
  }

  /** The item is the file the upload replaced: both ids truthy and equal. */
  predicate Replaces(item: JsObject, data: JsObject) {
    && "file_id" in item && Truthy(item["file_id"])
    && "old_id" in data && Truthy(data["old_id"])
    && item["file_id"] == data["old_id"]
  }

  /** With both ids present, equal ids match exactly when they are truthy:
      two missing (null) ids never match. */
  lemma ReplacesIffEqualTruthyIds(item: JsObject, data: JsObject)
    requires "file_id" in item && "old_id" in data
    ensures Replaces(item, data) <==> item["file_id"] == data["old_id"] && Truthy(item["file_id"])
    ensures item["file_id"] == JsNull ==> !Replaces(item, data)
  {
  }

  /** The item after the upload's answer. */
  function Merged(item: JsObject, data: JsObject): (merged: JsObject)
    ensures item.Keys <= merged.Keys
    ensures merged != item ==> Replaces(item, data)
  {
    if Replaces(item, data) then Extend(item, data) else item
  }

  /** The positions of the replaced items, in grid order. */
  function ReplacedIndices(items: seq<JsObject>, data: JsObject): (r: seq<nat>)
    ensures forall j :: 0 <= j < |r| ==> r[j] < |items| && Replaces(items[r[j]], data)
    ensures forall i :: 0 <= i < |items| && Replaces(items[i], data) ==> i in r
    ensures forall j, k :: 0 <= j < k < |r| ==> r[j] < r[k]
    decreases |items|
  {
    if items == [] then []
    else
      var n := |items| - 1;
      var front := ReplacedIndices(items[..n], data);
      assert forall i :: 0 <= i < n ==> items[..n][i] == items[i];
      front + (if Replaces(items[n], data) then [n] else [])
  }

  /** `uploadSuccess`: for a file update, merges the answer into each
      replaced item in place and passes those items to `updateItem`; the
      indices of the items passed are returned in the order of the calls. */
  method UploadSuccess(gridData: array<JsObject>, data: JsObject) returns (updated: seq<nat>)
    modifies gridData
    ensures !FileUpdated(data) ==> gridData[..] == old(gridData[..]) && updated == []
    ensures FileUpdated(data) ==>
              (forall i :: 0 <= i < gridData.Length ==> gridData[i] == Merged(old(gridData[i]), data))
              && updated == ReplacedIndices(old(gridData[..]), data)
  {
    updated := [];
    if !FileUpdated(data) {
      return;
    }
    ghost var items := gridData[..];
    var i := 0;
    while i < gridData.Length
      invariant 0 <= i <= gridData.Length
      invariant forall j :: 0 <= j < i ==> gridData[j] == Merged(items[j], data)
      invariant forall j :: i <= j < gridData.Length ==> gridData[j] == items[j]
      invariant updated == ReplacedIndices(items[..i], data)
    {
      assert items[..i + 1][..i] == items[..i];
      assert ReplacedIndices(items[..i + 1], data)
             == updated + (if Replaces(items[i], data) then [i] else []);
      var item := gridData[i];
      if Replaces(item, data) {
        gridData[i] := Extend(item, data);
        updated := updated + [i];
      }
      i := i + 1;
    }
    assert items[..i] == items;
  }

  /** What the merge does to one item: a replaced item gains or overwrites
      every property of the answer and keeps the rest; any other item is
      left as it was. */
  lemma MergedItemFields(item: JsObject, data: JsObject)
    ensures !Replaces(item, data) ==> Merged(item, data) == item
    ensures Replaces(item, data) ==>
              && Merged(item, data).Keys == item.Keys + data.Keys
              && (forall k :: k in data ==> Merged(item, data)[k] == data[k])
              && (forall k :: k in item && k !in data ==> Merged(item, data)[k] == item[k])
  {
  }

  /** Merging the same answer twice is merging it once; and when the answer
      names a new file id, the merged item is no longer taken for the file
      it replaced. */
  lemma MergeIsIdempotent(item: JsObject, data: JsObject)
    ensures Merged(Merged(item, data), data) == Merged(item, data)
    ensures Replaces(item, data) && "file_id" in data && data["file_id"] != data["old_id"] ==>
              !Replaces(Merged(item, data), data)
  {
    if Replaces(item, data) {
      var m := Extend(item, data);
      assert m + data == m;
    }
  }

  // ---------------------------------------------------------------------
  // Releasing a study
  // ---------------------------------------------------------------------

  /** The row status the grid shows while a release is in progress. */
  datatype Status = ReleasingStudy

  /** A call into the grid or a dialog, in the order it happens. */
  datatype Effect =
    | Confirm(message: string)
    | ChangeStatus(status: Status)
    | PutRequest(url: string)
    | Alert(message: string)
    | UpdateItem
    | GetRequest(url: string)
    | ReloadFolder

  /** The answer to the release request; a failure may come without a JSON
      body. */
  datatype ReleaseReply = Released | ReleaseFailed(responseJson: Option<JsObject>)

  const RELEASE_CONFIRMATION :=
    "By releasing this study, all content will be "
    + "made available through the Harvard Dataverse using their "
    + "internal privacy settings, regardless of your OSF project "
    + "settings. Are you sure you want to release this study?"
  const RELEASED_TEXT :=
    "Your study has been released. Please "
    + "allow up to 24 hours for the released version to "
    + "appear on your OSF project's file page."
  const RELEASE_ERROR := "Error: Something went wrong when attempting to release your study."
  const ALREADY_RELEASED := "Error: This version has already been released."

  /** The failure message: the generic error exactly for the code 400 (the
      number, under strict equality), the already-released text otherwise. */
  function ReleaseFailureMessage(responseJson: JsObject): (message: string)
    ensures message == RELEASE_ERROR <==> "code" in responseJson && responseJson["code"] == JsNum(400)
    ensures message == ALREADY_RELEASED <==> !("code" in responseJson && responseJson["code"] == JsNum(400))
  {
    if "code" in responseJson && responseJson["code"] == JsNum(400) then RELEASE_ERROR else ALREADY_RELEASED
  }

  /** The calls of the release action for a row whose release URL is `url`.
      A failure without a JSON body stops at reading its code. */
  function ReleaseEffects(url: string, confirmed: bool, reply: ReleaseReply): (effects: seq<Effect>)
    ensures |effects| >= 1 && effects[0] == Confirm(RELEASE_CONFIRMATION)
    ensures |effects| > 1 <==> confirmed
    ensures PutRequest(url) in effects <==> confirmed
  {
    if !confirmed then [Confirm(RELEASE_CONFIRMATION)]
    else
      [Confirm(RELEASE_CONFIRMATION), ChangeStatus(ReleasingStudy), PutRequest(url)]
      + match reply
        case Released => [Alert(RELEASED_TEXT), UpdateItem]
        case ReleaseFailed(Some(json)) => [Alert(ReleaseFailureMessage(json)), UpdateItem]
        case ReleaseFailed(None) => []
  }

  /** Nothing but the question happens unless the user confirms; once
      confirmed, the status changes before the request is sent, and an
      answer with a body ends with exactly one `updateItem` of the row. */
  lemma ReleaseOrder(url: string, confirmed: bool, reply: ReleaseReply)
    ensures !confirmed ==> ReleaseEffects(url, confirmed, reply) == [Confirm(RELEASE_CONFIRMATION)]
    ensures confirmed ==>
              |ReleaseEffects(url, confirmed, reply)| >= 3
              && ReleaseEffects(url, confirmed, reply)[1] == ChangeStatus(ReleasingStudy)
              && ReleaseEffects(url, confirmed, reply)[2] == PutRequest(url)
    ensures confirmed && reply != ReleaseFailed(None) ==>
              var e := ReleaseEffects(url, confirmed, reply);
              |e| == 5 && e[4] == UpdateItem
              && (forall i :: 0 <= i < 4 ==> e[i] != UpdateItem)
              && e[3] == Alert(if reply.Released? then RELEASED_TEXT else ReleaseFailureMessage(reply.responseJson.value))
    ensures confirmed && reply == ReleaseFailed(None) ==> UpdateItem !in ReleaseEffects(url, confirmed, reply)
  {
  }

  /** The grid and its dialogs, as the log of calls made into them. */
  class Grid {
    var log: seq<Effect>

    constructor ()
      ensures log == []
    {
      log := [];
    }

    method Record(e: Effect)
      modifies this
      ensures log == old(log) + [e]
    {
      log := log + [e];
    }

    /** The release button's action on `row`.  The release URL is read
        from the row's `urls` before the question is asked. */
    method ReleaseStudy(row: Row, confirmed: bool, reply: ReleaseReply)
      modifies this
      ensures UrlsEntry(row.fields, "release").None? ==> log == old(log)
      ensures UrlsEntry(row.fields, "release").Some? ==>
                log == old(log) + ReleaseEffects(UrlsEntry(row.fields, "release").value, confirmed, reply)
    {
      var release := UrlsEntry(row.fields, "release");
      if release.None? {
        return;
      }
      var url := release.value;
      Record(Confirm(RELEASE_CONFIRMATION));
      if confirmed {
        Record(ChangeStatus(ReleasingStudy));
        Record(PutRequest(url));
        match reply
        case Released =>
          Record(Alert(RELEASED_TEXT));
          Record(UpdateItem);
        case ReleaseFailed(json) =>
          if json.Some? {
            Record(Alert(ReleaseFailureMessage(json.value)));
            Record(UpdateItem);
          }
      }
    }
  }

  // ---------------------------------------------------------------------
  // Refreshing a dataverse's state
  // ---------------------------------------------------------------------

  /** A grid row: one JavaScript object, including its `data` and `urls`. */
  class Row {
    var fields: JsObject

    constructor (fields: JsObject)
      ensures this.fields == fields
    {
      this.fields := fields;
    }
  }

  /** `row.urls[key]` as a URL: Some when `urls` is an object holding a
      string under `key`. */
  function UrlsEntry(fields: JsObject, key: string): (url: Option<string>)
    ensures url.Some? <==> "urls" in fields && fields["urls"].JsObj?
                           && key in fields["urls"].props && fields["urls"].props[key].JsStr?
    ensures url.Some? ==> url.value == fields["urls"].props[key].s
  {
    if "urls" in fields && fields["urls"].JsObj? && key in fields["urls"].props
       && fields["urls"].props[key].JsStr?
    then Some(fields["urls"].props[key].s)
    else None
  }

  /** The row after `(item.data || {}).state = state`: an object `data`
      gains the state; with any other `data` the write reaches no property
      of the row. */
  function WithState(fields: JsObject, state: string): (r: JsObject)
    ensures r.Keys == fields.Keys
    ensures forall k :: k in fields && k != "data" ==> r[k] == fields[k]
    ensures "data" in fields && fields["data"].JsObj? ==>
              r["data"].JsObj?
              && r["data"].props.Keys == fields["data"].props.Keys + {"state"}
              && r["data"].props["state"] == JsStr(state)
              && forall k :: k in fields["data"].props && k != "state" ==>
                               r["data"].props[k] == fields["data"].props[k]
    ensures !("data" in fields && fields["data"].JsObj?) ==> r == fields
  {
    if "data" in fields && fields["data"].JsObj? then
      fields["data" := JsObj(fields["data"].props["state" := JsStr(state)])]
    else fields
  }

  /** Recording the state leaves the row's URLs alone. */
  lemma WithStateKeepsUrls(fields: JsObject, state: string, key: string)
    ensures UrlsEntry(WithState(fields, state), key) == UrlsEntry(fields, key)
  {
  }

  /** The row after a refresh whose answer's first entry is `entry`: every
      property of the entry, `data` and `urls` included, replaces the row's,
      so the next refresh and the next release use the URLs the answer gave. */
  lemma AnswerReplacesRowUrls(fields: JsObject, state: string, entry: JsObject, key: string)
    ensures var after := Extend(WithState(fields, state), entry);
            && ("data" in entry ==> after["data"] == entry["data"])
            && ("urls" in entry ==> UrlsEntry(after, key) == UrlsEntry(entry, key))
            && ("urls" !in entry ==> UrlsEntry(after, key) == UrlsEntry(fields, key))
  {
    WithStateKeepsUrls(fields, state, key);
  }

  /** `refreshDataverseTree`: records the chosen state on the row's data,
      asks for the new state at `urls.state` + `?state=` + the encoded
      state, and on an answer merges its first entry into the row and
      reloads the folder.  `encode` is the URL encoding of a parameter
      value.  Without a state URL the action stops after recording the
      state. */
  method RefreshDataverseTree(grid: Grid, item: Row, state: string, encode: string -> string,
                              reply: Reply<seq<JsObject>>)
    modifies grid, item
    ensures UrlsEntry(old(item.fields), "state").None? ==>
              item.fields == WithState(old(item.fields), state) && grid.log == old(grid.log)
    ensures UrlsEntry(old(item.fields), "state").Some? ==>
              && grid.log == old(grid.log)
                             + [GetRequest(UrlsEntry(old(item.fields), "state").value + "?state=" + encode(state))]
                             + (if reply.Ok? then [ReloadFolder] else [])
              && item.fields == if reply.Ok? && |reply.body| > 0
                                then Extend(WithState(old(item.fields), state), reply.body[0])
                                else WithState(old(item.fields), state)
  {
    WithStateKeepsUrls(item.fields, state, "state");
    if "data" in item.fields && item.fields["data"].JsObj? {
      var data := item.fields["data"].props;
      item.fields := item.fields["data" := JsObj(data["state" := JsStr(state)])];
    }
    var stateUrl := UrlsEntry(item.fields, "state");
    if stateUrl.None? {
      return;
    }
    var query := "state=" + encode(state);
    var url := stateUrl.value + "?" + query;
    assert url == stateUrl.value + "?state=" + encode(state);
    grid.Record(GetRequest(url));
    match reply
    case Ok(answer) =>
      if |answer| > 0 {
        item.fields := Extend(item.fields, answer[0]);
      }
      grid.Record(ReloadFolder);
    case Fail =>
  }

  // ---------------------------------------------------------------------
  // Citation
  // ---------------------------------------------------------------------

  /** `String.prototype.split` on one character. */
  function Split(s: string, sep: char): (parts: seq<string>)
    ensures |parts| >= 1
    ensures forall i :: 0 <= i < |parts| ==> sep !in parts[i]
    decreases |s|
  {
    if s == [] then [""]
    else
      var rest := Split(s[1..], sep);
      if s[0] == sep then [""] + rest
      else [[s[0]] + rest[0]] + rest[1..]
  }

  /** `Array.prototype.join` with one character. */
  function Join(parts: seq<string>, sep: char): string
    requires |parts| >= 1
    decreases |parts|
  {
    if |parts| == 1 then parts[0] else parts[0] + [sep] + Join(parts[1..], sep)
  }

  /** Splitting loses nothing: joining the parts gives the string back. */
  lemma {:induction false} JoinSplit(s: string, sep: char)
    ensures Join(Split(s, sep), sep) == s
    decreases |s|
  {
    if s != [] {
      var rest := Split(s[1..], sep);
      JoinSplit(s[1..], sep);
      if s[0] == sep {
        assert ([""] + rest)[1..] == rest;
      } else {
        var parts := [[s[0]] + rest[0]] + rest[1..];
        if |rest| > 1 {
          assert parts[1..] == rest[1..];
          assert Join(rest, sep) == rest[0] + [sep] + Join(rest[1..], sep);
        }
      }
    }
  }

  /** Split of a separator-free prefix followed by anything. */
  lemma {:induction false} SplitPrefix(p: string, t: string, sep: char)
    requires sep !in p
    ensures Split(p + t, sep) == [p + Split(t, sep)[0]] + Split(t, sep)[1..]
    decreases |p|
  {
    if p != [] {
      assert (p + t)[1..] == p[1..] + t;
      assert (p + t)[0] == p[0];
      SplitPrefix(p[1..], t, sep);
      assert [p[0]] + (p[1..] + Split(t, sep)[0]) == p + Split(t, sep)[0];
    } else {
      var parts := Split(t, sep);
      assert p + t == t;
      assert p + parts[0] == parts[0];
      assert parts == [parts[0]] + parts[1..];
    }
  }

  /** Separator-free parts survive a join and a split unchanged. */
  lemma {:induction false} SplitJoin(parts: seq<string>, sep: char)
    requires |parts| >= 1
    requires forall i :: 0 <= i < |parts| ==> sep !in parts[i]
    ensures Split(Join(parts, sep), sep) == parts
    decreases |parts|
  {
    if |parts| == 1 {
      SplitPrefix(parts[0], "", sep);
      assert parts[0] + "" == parts[0];
    } else {
      var tail := Join(parts[1..], sep);
      SplitJoin(parts[1..], sep);
      assert parts[0] + [sep] + tail == parts[0] + ([sep] + tail);
      SplitPrefix(parts[0], [sep] + tail, sep);
      assert ([sep] + tail)[1..] == tail;
      assert Split([sep] + tail, sep) == [""] + parts[1..];
      assert parts[0] + "" == parts[0];
      assert parts == [parts[0]] + parts[1..];
    }
  }

  const DOI_LINK_PREFIX := "http://dx.doi.org/"

  /** The study's DOI link: the prefix and the part of `doi` between its
      first and second ':'; with no ':' at all, JavaScript renders the
      missing part as "undefined". */
  function CitationLink(doi: string): (href: string)
    ensures ':' !in doi ==> href == DOI_LINK_PREFIX + "undefined"
  {
    var parts := Split(doi, ':');
    assert ':' !in doi ==> |parts| == 1 by {
      if ':' !in doi {
        SplitJoin([doi], ':');
      }
    }
    DOI_LINK_PREFIX + (if |parts| > 1 then parts[1] else "undefined")
  }

  /** For a DOI of the form `scheme:segment[:rest]`, the link carries
      exactly `segment`. */
  lemma CitationLinkSegment(scheme: string, segment: string, rest: string)
    requires ':' !in scheme && ':' !in segment
    ensures CitationLink(scheme + ":" + segment) == DOI_LINK_PREFIX + segment
    ensures CitationLink(scheme + ":" + segment + ":" + rest) == DOI_LINK_PREFIX + segment
  {
    var restParts := Split(rest, ':');
    SplitJoin([scheme, segment], ':');
    assert Join([scheme, segment], ':') == scheme + ":" + segment by {
      assert [scheme, segment][1..] == [segment];
    }
    JoinSplit(rest, ':');
    var parts := [scheme, segment] + restParts;
    SplitJoin(parts, ':');
    assert Join(parts, ':') == scheme + ":" + segment + ":" + rest by {
      assert parts[1..] == [segment] + restParts;
      assert parts[1..][1..] == restParts;
    }
  }
}
