/**
 * The addon folder-picker configuration widget: a view-model that extends a
 * generic folder picker with two overridable hooks (picking a folder,
 * connecting an account), a derived folder type and a credential flag.
 *
 * JavaScript objects whose keys matter are maps; a missing key is
 * `undefined`.  Handlers (functions stored in option bags) are opaque
 * values: the two defaults defined here, or a caller's function.
 */
module AddonNodeConfig {
  import opened Common

  /** A function stored in an options bag. */
  datatype Handler = DefaultPickFolder | DefaultConnectAccount | Supplied(id: nat)

  type Options = map<string, Handler>

  /** A plain JavaScript object with string values, such as a selection. */
  type JsObject = map<string, string>

  const ON_PICK_FOLDER := "onPickFolder"
  const CONNECT_ACCOUNT := "connectAccount"
  const ROOT_PATH := "/"

  /** The default hooks. */
  function Defaults(): Options {
    map[ON_PICK_FOLDER := DefaultPickFolder, CONNECT_ACCOUNT := DefaultConnectAccount]
  }

  /** The view-model's options: the caller's hooks over the defaults. */
  function MergeOptions(opts: Options): (options: Options)
    ensures ON_PICK_FOLDER in options && CONNECT_ACCOUNT in options
    ensures options[ON_PICK_FOLDER] == if ON_PICK_FOLDER in opts then opts[ON_PICK_FOLDER] else DefaultPickFolder
    ensures options[CONNECT_ACCOUNT] == if CONNECT_ACCOUNT in opts then opts[CONNECT_ACCOUNT] else DefaultConnectAccount
  {
    Extend(Defaults(), opts)
  }

  /** Overriding one hook leaves the other slot as it was. */
  lemma SlotsAreIndependent(opts: Options, h: Handler)
    ensures MergeOptions(opts[ON_PICK_FOLDER := h])[CONNECT_ACCOUNT] == MergeOptions(opts)[CONNECT_ACCOUNT]
    ensures MergeOptions(opts[CONNECT_ACCOUNT := h])[ON_PICK_FOLDER] == MergeOptions(opts)[ON_PICK_FOLDER]
    ensures MergeOptions(opts[ON_PICK_FOLDER := h])[ON_PICK_FOLDER] == h
  {
  }

  /** Options left undefined are an empty bag: both hooks default. */
  function NormalizeOpts(opts: Option<Options>): (o: Options)
    ensures opts.None? ==> MergeOptions(o) == Defaults()
    ensures opts.Some? ==> o == opts.value
  {
    opts.GetOr(map[])
  }

  /** The label for a picked folder: the path itself, or the full-account
      label for the root path, which is never shown as a bare "/". */
  function PickLabel(path: string, addonName: string): (name: string)
    ensures path != ROOT_PATH ==> name == path
    ensures path == ROOT_PATH ==> name == "/ (Full " + addonName + ")"
    ensures name != ROOT_PATH
  {
    if path != ROOT_PATH then path else "/ (Full " + addonName + ")"
  }

  /** The label does not tell the root apart from a folder whose path is
      spelled like the root's label. */
  lemma RootLabelIsNotUnique(addonName: string)
    ensures PickLabel("/ (Full " + addonName + ")", addonName) == PickLabel(ROOT_PATH, addonName)
  {
  }

  datatype ItemUrls = ItemUrls(folders: string)
  datatype ItemData = ItemData(path: string, id: string, urls: ItemUrls)
  /** A tree item of the folder picker. */
  datatype Item = Item(data: ItemData)

  /** The lazy-load URL of an item's subfolders, as the server supplied it. */
  function ResolveLazyloadUrl(item: Item): (url: string)
    ensures url == item.data.urls.folders
  {
    item.data.urls.folders
  }

  /** Settings fetched from the server. */
  datatype Settings = Settings(validCredentials: bool)

  /** Tree options: the base picker's own entries or the two set here.
      `DispatchPickFolder` runs `PickFolder` on the view-model; what
      `LazyloadFromItem` computes is `LazyloadUrl`. */
  datatype Hook = BaseHook(name: string) | DispatchPickFolder | LazyloadFromItem

  /** The URL a tree option resolves for lazy loading an item: the item's own
      folders URL for the resolver set here; None for the other options,
      which are not lazy-load resolvers of this view-model. */
  function LazyloadUrl(h: Hook, item: Item): (url: Option<string>)
    ensures h == LazyloadFromItem ==> url == Some(ResolveLazyloadUrl(item))
    ensures h != LazyloadFromItem ==> url.None?
  {
    if h == LazyloadFromItem then Some(ResolveLazyloadUrl(item)) else None
  }

  /** After construction, the tree resolves every item's subfolders from
      the item itself, whatever the base picker's options were. */
  lemma TreeResolvesLazyloadFromItem(base: map<string, Hook>, item: Item)
    ensures var tree := Extend(base, map["onPickFolder" := DispatchPickFolder,
                                         "resolveLazyloadUrl" := LazyloadFromItem]);
            && tree["onPickFolder"] == DispatchPickFolder
            && LazyloadUrl(tree["resolveLazyloadUrl"], item) == Some(item.data.urls.folders)
  {
  }

  /** What the inherited folder picker provides at construction. */
  datatype PickerBase = PickerBase(
    userHasAuth: bool, selected: Option<JsObject>, validCredentials: bool,
    authUrl: string, treebeardOptions: map<string, Hook>)

  /** What a pick led to: the default handler's return value, or a call to
      the caller's handler, whose return value is not modelled. */
  datatype PickResult = Returned(propagate: bool) | RanCallerHandler(h: Handler)

  /** What connecting an account led to. */
  datatype ConnectAction = Navigate(url: string) | RanCallerConnect(h: Handler)

  /** A DOM event; only `preventDefault` is modelled. */
  class Event {
    var defaultPrevented: bool

    constructor ()
      ensures !defaultPrevented
    {
      defaultPrevented := false;
    }

    method PreventDefault()
      modifies this
      ensures defaultPrevented
    {
      defaultPrevented := true;
    }
  }

  /** What a caller's pick handler leaves behind when it returns: the
      selection it sets (the old one if it sets none) and whether it
      prevents the event's default action. The handler's code belongs to
      the caller, so its effect is given. */
  datatype CallerPick = CallerPick(selection: Option<JsObject>, preventsDefault: bool)

  class AddonFolderPickerViewModel {
    const addonName: string
    const url: string
    const selector: string
    const folderPicker: string
    var authUrl: string

    var userHasAuth: bool
    var selected: Option<JsObject>
    var validCredentials: bool
    var accounts: seq<JsObject>
    var options: Options
    var treebeardOptions: map<string, Hook>

    ghost predicate Valid()
      reads this
    {
      ON_PICK_FOLDER in options && CONNECT_ACCOUNT in options
    }

    /** `opts` holds the caller's own functions: the defaults are private. */
    constructor (addonName: string, url: string, selector: string, folderPicker: string,
                 opts: Options, base: PickerBase)
      requires forall k :: k in opts ==> opts[k].Supplied?
      ensures Valid()
      ensures this.addonName == addonName && this.url == url
      ensures this.selector == selector && this.folderPicker == folderPicker
      ensures userHasAuth == base.userHasAuth && selected == base.selected
      ensures validCredentials == base.validCredentials && authUrl == base.authUrl
      ensures accounts == []
      ensures options == MergeOptions(opts)
      ensures forall k :: k in options && options[k] == DefaultPickFolder ==> k == ON_PICK_FOLDER
      ensures forall k :: k in options && options[k] == DefaultConnectAccount ==> k == CONNECT_ACCOUNT
      ensures treebeardOptions == Extend(base.treebeardOptions,
                                         map["onPickFolder" := DispatchPickFolder,
                                             "resolveLazyloadUrl" := LazyloadFromItem])
    {
      this.addonName := addonName;
      this.url := url;
      this.selector := selector;
      this.folderPicker := folderPicker;
      userHasAuth := base.userHasAuth;
      selected := base.selected;
      validCredentials := base.validCredentials;
      authUrl := base.authUrl;
      accounts := [];
      options := Extend(Defaults(), opts);
      treebeardOptions := Extend(base.treebeardOptions,
                                 map["onPickFolder" := DispatchPickFolder,
                                     "resolveLazyloadUrl" := LazyloadFromItem]);
    }

    /** The type of the selected folder: `''` without auth or selection;
        otherwise the selection's `type`, None when it has none. */
    function SelectedFolderType(): (t: Option<string>)
      reads this
      ensures !(userHasAuth && selected.Some?) ==> t == Some("")
      ensures userHasAuth && selected.Some? ==>
                (t.Some? <==> "type" in selected.value)
                && (t.Some? ==> t.value == selected.value["type"])
    {
      if userHasAuth && selected.Some? then
        if "type" in selected.value then Some(selected.value["type"]) else None
      else Some("")
    }

    /** The default pick handler: prevents the default action, replaces the
        selection with exactly {name, path, id} and stops propagation. */
    method DefaultOnPickFolder(evt: Event, item: Item) returns (propagate: bool)
      modifies this`selected, evt
      ensures evt.defaultPrevented
      ensures !propagate
      ensures selected.Some? && selected.value.Keys == {"name", "path", "id"}
      ensures selected.value["name"] == PickLabel(item.data.path, addonName)
      ensures selected.value["path"] == item.data.path && selected.value["id"] == item.data.id
      ensures selected == Some(map["name" := PickLabel(item.data.path, addonName),
                                   "path" := item.data.path, "id" := item.data.id])
      ensures userHasAuth ==> SelectedFolderType().None?
    {
      evt.PreventDefault();
      selected := Some(map["name" := PickLabel(item.data.path, addonName), "path" := item.data.path, "id" := item.data.id]);
      propagate := false;
    }

    /** The tree's pick hook: runs whichever handler the options hold, with
        the view-model as `this`; `caller` is what a caller's handler does. */
    method PickFolder(evt: Event, item: Item, caller: CallerPick) returns (result: PickResult)
      requires Valid()
      modifies this`selected, evt
      ensures Valid()
      ensures old(options[ON_PICK_FOLDER]) == DefaultPickFolder ==>
                result == Returned(false) && evt.defaultPrevented
                && selected == Some(map["name" := PickLabel(item.data.path, addonName),
                                        "path" := item.data.path, "id" := item.data.id])
      ensures old(options[ON_PICK_FOLDER]) != DefaultPickFolder ==>
                result == RanCallerHandler(options[ON_PICK_FOLDER]) && selected == caller.selection
                && evt.defaultPrevented == (old(evt.defaultPrevented) || caller.preventsDefault)
    {
      if options[ON_PICK_FOLDER] == DefaultPickFolder {
        var propagate := DefaultOnPickFolder(evt, item);
        result := Returned(propagate);
      } else {
        selected := caller.selection;
        if caller.preventsDefault {
          evt.PreventDefault();
        }
        result := RanCallerHandler(options[ON_PICK_FOLDER]);
      }
    }

    /** Connects an account: by default, navigates to the authorization URL. */
    method ConnectAccount() returns (action: ConnectAction)
      requires Valid()
      ensures options[CONNECT_ACCOUNT] == DefaultConnectAccount ==> action == Navigate(authUrl)
      ensures options[CONNECT_ACCOUNT] != DefaultConnectAccount ==> action == RanCallerConnect(options[CONNECT_ACCOUNT])
    {
      if options[CONNECT_ACCOUNT] == DefaultConnectAccount {
        action := Navigate(authUrl);
      } else {
        action := RanCallerConnect(options[CONNECT_ACCOUNT]);
      }
    }

    /** Copies the credential flag from freshly fetched settings. */
    method UpdateCustomFields(settings: Settings)
      modifies this`validCredentials
      ensures validCredentials == settings.validCredentials
    {
      validCredentials := settings.validCredentials;
    }
  }

  /** The public entry point: normalises the options and builds the view-model. */
  class AddonNodeConfig {
    const url: string
    const folderPicker: string
    const viewModel: AddonFolderPickerViewModel

    constructor (addonName: string, selector: string, url: string, folderPicker: string,
                 opts: Option<Options>, base: PickerBase)
      requires opts.Some? ==> forall k :: k in opts.value ==> opts.value[k].Supplied?
      ensures this.url == url && this.folderPicker == folderPicker
      ensures fresh(viewModel) && viewModel.Valid()
      ensures viewModel.addonName == addonName && viewModel.url == url
      ensures viewModel.selector == selector && viewModel.folderPicker == folderPicker
      ensures viewModel.options == MergeOptions(NormalizeOpts(opts))
      ensures opts.None? ==> viewModel.options == Defaults()
    {
      this.url := url;
      this.folderPicker := folderPicker;
      var o := NormalizeOpts(opts);
      viewModel := new AddonFolderPickerViewModel(addonName, url, selector, folderPicker, o, base);
    }
  }
}
