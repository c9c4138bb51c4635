/**
 * The admin dashboard's UI state (`app/admin/AdminContent.tsx`): the
 * active tab, three dialog flags, the media and news editing targets with
 * their snapshots, and the local news list. Every handler is a sequential
 * update of these cells; list fetches and delete requests are recorded as
 * effects, and navigation and storage go through the shared browser.
 */
module Admin {
  import opened Wrappers
  import opened BrowserState
  import Middleware
  import UserValidation
  import AddNewsForms
  import UploadMediaForms

  // ---------------------------------------------------------------------
  // Tabs

  datatype Tab = Users | Media | News

  function TabName(t: Tab): string {
    match t
    case Users => "Users"
    case Media => "Media"
    case News => "News"
  }

  /** `tabs.includes(s)`, giving the tab it names. */
  function ParseTab(s: string): (r: Option<Tab>)
    ensures r.Some? <==> s in ["Users", "Media", "News"]
    ensures r.Some? ==> TabName(r.value) == s
  {
    if s == "Users" then Some(Users)
    else if s == "Media" then Some(Media)
    else if s == "News" then Some(News)
    else None
  }

  /** `searchParams.get("tab") || "Users"`, kept only if it names a tab. */
  function TabFromQuery(query: Option<string>): Option<Tab> {
    var tab := if query.Some? && query.value != "" then query.value else "Users";
    ParseTab(tab)
  }

  /** The URL `handleTabChange` pushes. */
  function TabUrl(t: Tab): string {
    "/admin?tab=" + TabName(t)
  }

  /** The tab written into the URL is the tab read back from it, and a
      missing or empty query selects Users. */
  lemma TabQueryRoundTrip(t: Tab)
    ensures TabFromQuery(Some(TabName(t))) == Some(t)
    ensures TabFromQuery(None) == Some(Users) && TabFromQuery(Some("")) == Some(Users)
  {
  }

  // ---------------------------------------------------------------------
  // Records, snapshots and effects

  /** A media item as the list hands it to `onEdit`. */
  datatype MediaRecord = MediaRecord(
    title: string, mediaType: string, desc: string, image: string,
    video: Option<string>, createdAt: Option<string>)

  /** `editingMediaData`: the five fields copied from the edited item. */
  datatype MediaSnapshot = MediaSnapshot(
    title: string, mediaType: string, desc: string, image: string, video: Option<string>)

  /** A news item as the list hands it to `onEditNews`, or as fetched. */
  datatype NewsRecord = NewsRecord(title: string, summary: Option<string>, description: Option<string>)

  /** `editingNewsData` */
  datatype NewsSnapshot = NewsSnapshot(title: string, summary: Option<string>)

  /** An entry of `newsItems`: fetched from the server, or added locally by
      `handleAddNews` with a numeric id. */
  datatype NewsEntry =
    | Fetched(record: NewsRecord)
    | Local(id: nat, title: string, summary: string, date: string)

  datatype Resource = UsersList | MediaList | NewsList

  /** A call into a data hook: `fetchUsers`/`fetchMedias`/`fetchNews`, or a delete. */
  datatype Effect = Fetch(resource: Resource) | DeleteNews(newsId: string) | DeleteMedia(mediaId: string)

  /** The storage key `handleLogout` removes. */
  const TokenStorageKey: string := "authToken"

  /** JavaScript truthiness of an optional id: present and non-empty. */
  predicate Truthy(id: Option<string>) {
    id.Some? && id.value != ""
  }

  function MediaSnapshotOf(m: MediaRecord): MediaSnapshot {
    MediaSnapshot(m.title, m.mediaType, m.desc, m.image, m.video)
  }

  /** `summary: newsData.summary || newsData.description` */
  function NewsSnapshotOf(n: NewsRecord): (s: NewsSnapshot)
    ensures s.title == n.title
    ensures Truthy(n.summary) ==> s.summary == n.summary
    ensures !Truthy(n.summary) ==> s.summary == n.description
  {
    NewsSnapshot(n.title, if Truthy(n.summary) then n.summary else n.description)
  }

  /** The media dialog's title: "Edit Media" exactly when the editing id is truthy. */
  function MediaDialogTitle(editingMediaId: Option<string>): (r: string)
    ensures r == "Edit Media" <==> Truthy(editingMediaId)
    ensures r != "Edit Media" ==> r == "Upload Media"
  {
    if Truthy(editingMediaId) then "Edit Media" else "Upload Media"
  }

  /** The news dialog's title, by the same rule. */
  function NewsDialogTitle(editingNewsId: Option<string>): (r: string)
    ensures r == "Edit News Article" <==> Truthy(editingNewsId)
    ensures r != "Edit News Article" ==> r == "Create News Article"
  {
    if Truthy(editingNewsId) then "Edit News Article" else "Create News Article"
  }

  /** Every locally added entry carries its own position plus one. */
  predicate LocalIdsArePositions(items: seq<NewsEntry>) {
    forall k :: 0 <= k < |items| && items[k].Local? ==> items[k].id == k + 1
  }

  /** Hence locally added entries never share an id. */
  lemma LocalIdsDistinct(items: seq<NewsEntry>, j: int, k: int)
    requires LocalIdsArePositions(items)
    requires 0 <= j < k < |items| && items[j].Local? && items[k].Local?
    ensures items[j].id != items[k].id
  {
  }

  /** `setNewsItems(newsData)` */
  function FetchedEntries(data: seq<NewsRecord>): (r: seq<NewsEntry>)
    ensures |r| == |data|
    ensures forall k :: 0 <= k < |r| ==> r[k].Fetched?
  {
    seq(|data|, k requires 0 <= k < |data| => Fetched(data[k]))
  }

  /** The state cells of the component, as one value. */
  datatype AdminState = AdminState(
    active: Tab,
    showAddForm: bool,
    showUploadForm: bool,
    showNewsForm: bool,
    editingMediaId: Option<string>,
    editingMediaData: Option<MediaSnapshot>,
    editingNewsId: Option<string>,
    editingNewsData: Option<NewsSnapshot>,
    newsItems: seq<NewsEntry>)

  // ---------------------------------------------------------------------
  // The component

  class AdminContent {
    const browser: Browser
    var active: Tab
    var showAddForm: bool
    var showUploadForm: bool
    var showNewsForm: bool
    var editingMediaId: Option<string>
    var editingMediaData: Option<MediaSnapshot>
    var editingNewsId: Option<string>
    var editingNewsData: Option<NewsSnapshot>
    var newsItems: seq<NewsEntry>
    /** The calls made into the data hooks, oldest first. */
    var effects: seq<Effect>

    function State(): AdminState
      reads this
    {
      AdminState(active, showAddForm, showUploadForm, showNewsForm,
                 editingMediaId, editingMediaData, editingNewsId, editingNewsData, newsItems)
    }

    /** Each editing id travels with its snapshot, and local news ids are
        their positions. */
    ghost predicate Valid()
      reads this
    {
      && (editingMediaId.Some? <==> editingMediaData.Some?)
      && (editingNewsId.Some? <==> editingNewsData.Some?)
      && LocalIdsArePositions(newsItems)
    }

    constructor (browser: Browser)
      ensures Valid() && this.browser == browser
      ensures State() == AdminState(Users, false, false, false, None, None, None, None, [])
      ensures effects == []
    {
      this.browser := browser;
      active := Users;
      showAddForm, showUploadForm, showNewsForm := false, false, false;
      editingMediaId, editingMediaData := None, None;
      editingNewsId, editingNewsData := None, None;
      newsItems := [];
      effects := [];
    }

    /** The effect on `searchParams`: adopt the query's tab when it names one. */
    method SyncTabFromQuery(query: Option<string>)
      requires Valid()
      modifies this
      ensures Valid() && effects == old(effects)
      ensures TabFromQuery(query).Some? ==> State() == old(State()).(active := TabFromQuery(query).value)
      ensures TabFromQuery(query).None? ==> State() == old(State())
    {
      var tab := if query.Some? && query.value != "" then query.value else "Users";
      var parsed := ParseTab(tab);
      if parsed.Some? {
        active := parsed.value;
      }
    }

    /** Mounting: `useFetchUsers()` and `useFetchNews()` are called with
        their default `autoFetch = true`, so each hook's own effect requests
        its list first; then the component's mount effect requests all three.
        Users and news are thus requested twice, media once. */
    method Mount()
      requires Valid()
      modifies this
      ensures Valid() && State() == old(State())
      ensures effects == old(effects) + [Fetch(UsersList), Fetch(NewsList)]
                                       + [Fetch(UsersList), Fetch(NewsList), Fetch(MediaList)]
    {
      effects := effects + [Fetch(UsersList), Fetch(NewsList)];
      effects := effects + [Fetch(UsersList), Fetch(NewsList), Fetch(MediaList)];
    }

    /** `handleTabChange`: select the tab and push its URL. */
    method HandleTabChange(t: Tab)
      requires Valid()
      modifies this, browser
      ensures Valid() && effects == old(effects)
      ensures State() == old(State()).(active := t)
      ensures browser.history == old(browser.history) + [TabUrl(t)]
      ensures browser.cookies == old(browser.cookies) && browser.storage == old(browser.storage)
    {
      active := t;
      browser.Push(TabUrl(t));
    }

    /** The user list's `onAddUser`. */
    method OpenAddUser()
      requires Valid()
      modifies this
      ensures Valid() && effects == old(effects)
      ensures State() == old(State()).(showAddForm := true)
    {
      showAddForm := true;
    }

    /** The add-user dialog's `onClose` and the form's `onCancel`. */
    method CloseAddUser()
      requires Valid()
      modifies this
      ensures Valid() && effects == old(effects)
      ensures State() == old(State()).(showAddForm := false)
    {
      showAddForm := false;
    }

    /** `handleAddUser`: refetch the users and hide the form; the entered
        data itself is not used. */
    method HandleAddUser(user: UserValidation.UserForm)
      requires Valid()
      modifies this
      ensures Valid()
      ensures State() == old(State()).(showAddForm := false)
      ensures effects == old(effects) + [Fetch(UsersList)]
    {
      effects := effects + [Fetch(UsersList)];
      showAddForm := false;
    }

    /** `onDeleteUserSuccess` */
    method OnDeleteUserSuccess()
      requires Valid()
      modifies this
      ensures Valid() && State() == old(State())
      ensures effects == old(effects) + [Fetch(UsersList)]
    {
      effects := effects + [Fetch(UsersList)];
    }

    /** The media list's `onUpload`: open the dialog for a new upload. */
    method OpenUploadMedia()
      requires Valid()
      modifies this
      ensures Valid() && effects == old(effects)
      ensures State() == old(State()).(showUploadForm := true, editingMediaId := None, editingMediaData := None)
    {
      editingMediaId := None;
      editingMediaData := None;
      showUploadForm := true;
    }

    /** `handleEditMedia`: target the item, snapshot its fields, show the dialog. */
    method HandleEditMedia(mediaId: string, media: MediaRecord)
      requires Valid()
      modifies this
      ensures Valid() && effects == old(effects)
      ensures State() == old(State()).(showUploadForm := true, editingMediaId := Some(mediaId),
                                       editingMediaData := Some(MediaSnapshotOf(media)))
    {
      editingMediaId := Some(mediaId);
      editingMediaData := Some(MediaSnapshot(media.title, media.mediaType, media.desc, media.image, media.video));
      showUploadForm := true;
    }

    /** The media dialog's `onClose`: hide it and drop the editing target. */
    method CloseMediaDialog()
      requires Valid()
      modifies this
      ensures Valid() && effects == old(effects)
      ensures State() == old(State()).(showUploadForm := false, editingMediaId := None, editingMediaData := None)
    {
      showUploadForm := false;
      editingMediaId := None;
      editingMediaData := None;
    }

    /** The media form's `onSuccess`: refetch the media, then leave as on close. */
    method MediaFormSuccess()
      requires Valid()
      modifies this
      ensures Valid()
      ensures State() == old(State()).(showUploadForm := false, editingMediaId := None, editingMediaData := None)
      ensures effects == old(effects) + [Fetch(MediaList)]
    {
      effects := effects + [Fetch(MediaList)];
      showUploadForm := false;
      editingMediaId := None;
      editingMediaData := None;
    }

    /** The media form's `onCancel`: as on close. */
    method CancelMediaForm()
      requires Valid()
      modifies this
      ensures Valid() && effects == old(effects)
      ensures State() == old(State()).(showUploadForm := false, editingMediaId := None, editingMediaData := None)
    {
      showUploadForm := false;
      editingMediaId := None;
      editingMediaData := None;
    }

    /** `handleUploadMedia`: refetch and hide; it leaves the editing target. */
    method HandleUploadMedia(upload: UploadMediaForms.Upload)
      requires Valid()
      modifies this
      ensures Valid()
      ensures State() == old(State()).(showUploadForm := false)
      ensures effects == old(effects) + [Fetch(MediaList)]
    {
      effects := effects + [Fetch(MediaList)];
      showUploadForm := false;
    }

    /** `handleDeleteMedia`, given what the delete request reported. */
    method HandleDeleteMedia(mediaId: string, success: bool)
      requires Valid()
      modifies this
      ensures Valid() && State() == old(State())
      ensures effects == old(effects) + [DeleteMedia(mediaId)] + (if success then [Fetch(MediaList)] else [])
    {
      effects := effects + [DeleteMedia(mediaId)];
      if success {
        effects := effects + [Fetch(MediaList)];
      }
    }

    /** The news list's `onCreateNews`: open the dialog for a new article. */
    method OpenCreateNews()
      requires Valid()
      modifies this
      ensures Valid() && effects == old(effects)
      ensures State() == old(State()).(showNewsForm := true, editingNewsId := None, editingNewsData := None)
    {
      editingNewsId := None;
      editingNewsData := None;
      showNewsForm := true;
    }

    /** `handleEditNews`: target the article, snapshot it, show the dialog. */
    method HandleEditNews(newsId: string, news: NewsRecord)
      requires Valid()
      modifies this
      ensures Valid() && effects == old(effects)
      ensures State() == old(State()).(showNewsForm := true, editingNewsId := Some(newsId),
                                       editingNewsData := Some(NewsSnapshotOf(news)))
    {
      editingNewsId := Some(newsId);
      editingNewsData := Some(NewsSnapshot(news.title, if Truthy(news.summary) then news.summary else news.description));
      showNewsForm := true;
    }

    /** The news dialog's `onClose`: it only hides the dialog; the editing
        target stays set. */
    method CloseNewsDialog()
      requires Valid()
      modifies this
      ensures Valid() && effects == old(effects)
      ensures State() == old(State()).(showNewsForm := false)
    {
      showNewsForm := false;
    }

    /** The news form's `onCancel`: hide the dialog and drop the target. */
    method CancelNewsForm()
      requires Valid()
      modifies this
      ensures Valid() && effects == old(effects)
      ensures State() == old(State()).(showNewsForm := false, editingNewsId := None, editingNewsData := None)
    {
      showNewsForm := false;
      editingNewsId := None;
      editingNewsData := None;
    }

    /** `handleNewsFormSuccess`: refetch the news, hide, drop the target. */
    method HandleNewsFormSuccess()
      requires Valid()
      modifies this
      ensures Valid()
      ensures State() == old(State()).(showNewsForm := false, editingNewsId := None, editingNewsData := None)
      ensures effects == old(effects) + [Fetch(NewsList)]
    {
      effects := effects + [Fetch(NewsList)];
      showNewsForm := false;
      editingNewsId := None;
      editingNewsData := None;
    }

    /** `handleDeleteNews`, given what the delete request reported. */
    method HandleDeleteNews(newsId: string, success: bool)
      requires Valid()
      modifies this
      ensures Valid() && State() == old(State())
      ensures effects == old(effects) + [DeleteNews(newsId)] + (if success then [Fetch(NewsList)] else [])
    {
      effects := effects + [DeleteNews(newsId)];
      if success {
        effects := effects + [Fetch(NewsList)];
      }
    }

    /** The effect on fetched news: an empty result keeps the current list. */
    method ReceiveNews(data: seq<NewsRecord>)
      requires Valid()
      modifies this
      ensures Valid() && effects == old(effects)
      ensures |data| > 0 ==> State() == old(State()).(newsItems := FetchedEntries(data))
      ensures |data| == 0 ==> State() == old(State())
    {
      if |data| > 0 {
        newsItems := FetchedEntries(data);
      }
    }

    /** `handleAddNews`: append one local entry numbered after the list's
        length, keep the earlier entries, and hide the form. The date is
        supplied by the caller. */
    method HandleAddNews(news: AddNewsForms.NewsForm, date: string)
      requires Valid()
      modifies this
      ensures Valid() && effects == old(effects)
      ensures State() == old(State()).(showNewsForm := false,
                newsItems := old(newsItems) + [Local(|old(newsItems)| + 1, news.title, news.summary, date)])
    {
      var entry := Local(|newsItems| + 1, news.title, news.summary, date);
      newsItems := newsItems + [entry];
      showNewsForm := false;
    }

    /** `handleLogout`: remove the stored token, expire the cookie, go to `/login`. */
    method HandleLogout()
      requires Valid()
      modifies browser
      ensures Valid() && State() == old(State()) && effects == old(effects)
      ensures browser.storage == old(browser.storage) - {TokenStorageKey}
      ensures browser.cookies == old(browser.cookies) - {Middleware.AuthCookie}
      ensures browser.history == old(browser.history) + ["/login"]
    {
      browser.RemoveItem(TokenStorageKey);
      browser.ExpireCookie(Middleware.AuthCookie);
      browser.Push("/login");
    }
  }

  // ---------------------------------------------------------------------
  // Dialog exits, run on a fresh dashboard

  /** The three ways out of the media dialog. */
  datatype MediaExit = ExitByClose | ExitByCancel | ExitBySuccess

  /** However the media dialog is left after an edit, it is hidden and its
      editing target and snapshot are gone, so the title computed for the
      hidden dialog right after the exit is the upload one; only success
      refetches the media. */
  method LeaveMediaDialog(mediaId: string, media: MediaRecord, exit: MediaExit)
    returns (s: AdminState, fetches: seq<Effect>)
    ensures !s.showUploadForm && s.editingMediaId == None && s.editingMediaData == None
    ensures MediaDialogTitle(s.editingMediaId) == "Upload Media"
    ensures fetches == (if exit == ExitBySuccess then [Fetch(MediaList)] else [])
  {
    var browser := new Browser(map[], map[]);
    var admin := new AdminContent(browser);
    admin.HandleEditMedia(mediaId, media);
    match exit {
      case ExitByClose => admin.CloseMediaDialog();
      case ExitByCancel => admin.CancelMediaForm();
      case ExitBySuccess => admin.MediaFormSuccess();
    }
    s := admin.State();
    fetches := admin.effects;
  }

  /** The news dialog's close control hides it but keeps the editing target
      and snapshot, whereas its cancel control drops them; right after a
      close, the title computed for the hidden dialog is still the one for
      the edited id. */
  method LeaveNewsDialog(newsId: string, news: NewsRecord)
    returns (afterClose: AdminState, afterCancel: AdminState)
    ensures !afterClose.showNewsForm
    ensures afterClose.editingNewsId == Some(newsId)
    ensures afterClose.editingNewsData == Some(NewsSnapshotOf(news))
    ensures NewsDialogTitle(afterClose.editingNewsId) == NewsDialogTitle(Some(newsId))
    ensures !afterCancel.showNewsForm
    ensures afterCancel.editingNewsId == None && afterCancel.editingNewsData == None
  {
    var browser := new Browser(map[], map[]);
    var admin := new AdminContent(browser);
    admin.HandleEditNews(newsId, news);
    admin.CloseNewsDialog();
    afterClose := admin.State();
    admin.HandleEditNews(newsId, news);
    admin.CancelNewsForm();
    afterCancel := admin.State();
  }

  /** The close/cancel difference never shows when the news dialog is opened
      again: after an edit and a close, the create button clears the kept
      target, so the title is the create one, and editing another article
      replaces the target and snapshot with that article's. */
  method ReopenNewsDialog(newsId: string, news: NewsRecord, nextId: string, next: NewsRecord)
    returns (created: AdminState, edited: AdminState)
    ensures created.showNewsForm && created.editingNewsId == None && created.editingNewsData == None
    ensures NewsDialogTitle(created.editingNewsId) == "Create News Article"
    ensures edited.showNewsForm && edited.editingNewsId == Some(nextId)
    ensures edited.editingNewsData == Some(NewsSnapshotOf(next))
    ensures NewsDialogTitle(edited.editingNewsId) == NewsDialogTitle(Some(nextId))
  {
    var browser := new Browser(map[], map[]);
    var admin := new AdminContent(browser);
    admin.HandleEditNews(newsId, news);
    admin.CloseNewsDialog();
    admin.OpenCreateNews();
    created := admin.State();
    admin.CloseNewsDialog();
    admin.HandleEditNews(nextId, next);
    edited := admin.State();
  }
}
