/**
 * The mailbox store (src/lib/store/mail.ts): the shown page of mails, the
 * page cache and its keys, the stale-response counter, the selection, the
 * unread counter, and the status actions on single mails and on the
 * selection. API calls are inputs: a status update's outcome is `ok`, a
 * list fetch's outcome a `Result`. The detail cache is the module's
 * `LruCache` of capacity 50.
 */
module MailStore {
  import opened Wrappers
  import opened Types
  import opened Text
  import opened Seqs
  import opened Lru

  const DetailCacheSize: int := 50

  // ---- Cache keys ----

  /** The part of a cache key before the filter: `search:<query>:` when searching, nothing otherwise. */
  function SearchPrefix(searchQuery: string): string {
    if searchQuery != "" then "search:" + searchQuery + ":" else ""
  }

  /** The page cache key: `search:<query>:<filter>:<page>` when searching, `<filter>:<page>` otherwise. */
  function CacheKey(searchQuery: string, filter: FilterType, page: int): string {
    SearchPrefix(searchQuery) + NatToString(FilterCode(filter)) + ":" + IntToString(page)
  }

  /** A string ending in ':' followed by colon-free text splits there in only one way. */
  lemma SplitAtLastColon(x1: string, p1: string, x2: string, p2: string)
    requires ':' !in p1 && ':' !in p2
    requires x1 + ":" + p1 == x2 + ":" + p2
    ensures x1 == x2 && p1 == p2
  {
    var k := x1 + ":" + p1;
    assert k[|x1|] == ':' && k[|x2|] == ':';
    assert forall j :: |x1| < j < |k| ==> k[j] == p1[j - |x1| - 1];
    assert forall j :: |x2| < j < |k| ==> k[j] == p2[j - |x2| - 1];
    assert |x1| == |x2|;
    assert x1 == k[..|x1|];
    assert p1 == k[|x1| + 1..];
  }

  /** Two strings that end in one character each split there in only one way. */
  lemma SplitLastChar(a1: string, d1: string, a2: string, d2: string)
    requires |d1| == 1 && |d2| == 1 && a1 + d1 == a2 + d2
    ensures a1 == a2 && d1 == d2
  {
    var k := a1 + d1;
    assert a1 == k[..|k| - 1] && d1 == k[|k| - 1..];
    assert a2 == k[..|k| - 1] && d2 == k[|k| - 1..];
  }

  /** The search prefix determines the query. */
  lemma SearchPrefixInjective(q1: string, q2: string)
    requires SearchPrefix(q1) == SearchPrefix(q2)
    ensures q1 == q2
  {
    if q1 != "" && q2 != "" {
      var k := SearchPrefix(q1);
      assert q1 == k[7..|k| - 1];
      assert q2 == k[7..|k| - 1];
    }
  }

  /** The filter's code, rendered, determines the filter. */
  lemma FilterDigitInjective(f1: FilterType, f2: FilterType)
    requires NatToString(FilterCode(f1)) == NatToString(FilterCode(f2))
    ensures f1 == f2
  {
    NatToStringInjective(FilterCode(f1), FilterCode(f2));
    FilterCodeInjective(f1, f2);
  }

  /** Distinct (query, filter, page) triples never share a cache entry. */
  lemma CacheKeyInjective(q1: string, f1: FilterType, p1: int, q2: string, f2: FilterType, p2: int)
    requires CacheKey(q1, f1, p1) == CacheKey(q2, f2, p2)
    ensures q1 == q2 && f1 == f2 && p1 == p2
  {
    var d1, d2 := NatToString(FilterCode(f1)), NatToString(FilterCode(f2));
    SplitAtLastColon(SearchPrefix(q1) + d1, IntToString(p1), SearchPrefix(q2) + d2, IntToString(p2));
    IntToStringInjective(p1, p2);
    assert |d1| == 1 && |d2| == 1;
    SplitLastChar(SearchPrefix(q1), d1, SearchPrefix(q2), d2);
    FilterDigitInjective(f1, f2);
    SearchPrefixInjective(q1, q2);
  }

  // ---- State ----

  /** A cached list page. */
  datatype CachedPage = CachedPage(mails: seq<MailItem>, pageCount: int, total: int)

  /** The store's fields; `fetchSeq` is the module's request counter. */
  datatype MailView = MailView(
    filter: FilterType,
    pageIndex: int,
    pageCount: int,
    total: int,
    searchQuery: string,
    mails: seq<MailItem>,
    loading: bool,
    mailCache: map<string, CachedPage>,
    unreadCount: int,
    spamCount: int,
    draftCount: int,
    selectedMailId: Option<string>,
    selectedMailDetail: Option<MailDetail>,
    selectedIds: set<string>,
    fetchSeq: int)

  function InitialView(): MailView {
    MailView(FilterType.Inbox, 1, 0, 0, "", [], false, map[], 0, 0, 0, None, None, {}, 0)
  }

  /** The key of the page the store is on. */
  function CurrentKey(v: MailView): string {
    CacheKey(v.searchQuery, v.filter, v.pageIndex)
  }

  /** A cached page, when there is one, is shown at once. */
  function ShowCached(v: MailView, key: string): (r: MailView)
    ensures key in v.mailCache ==> r.mails == v.mailCache[key].mails && r.total == v.mailCache[key].total
    ensures key !in v.mailCache ==> r == v
  {
    if key in v.mailCache then
      var c := v.mailCache[key];
      v.(mails := c.mails, pageCount := c.pageCount, total := c.total)
    else v
  }

  // ---- Fetching pages ----

  /** The list request a fetch sends. */
  datatype ListRequest = Search(query: string, filter: FilterType, page: int) | List(filter: FilterType, page: int)

  /** What a started fetch remembers across its `await`. */
  datatype FetchTicket = FetchTicket(number: int, key: string, hasCached: bool, request: ListRequest)

  datatype ListResponse = ListResponse(mails: Option<seq<MailItem>>, pageNum: int, total: int)

  /** The synchronous part of `fetchMails`: the loading flag when nothing is cached, and the next sequence number. */
  function StartFetchSpec(v: MailView): (r: (MailView, FetchTicket))
    ensures r.1.number == r.0.fetchSeq == v.fetchSeq + 1
    ensures r.1.key == CurrentKey(v) && r.1.hasCached == (CurrentKey(v) in v.mailCache)
    ensures r.1.request == if v.searchQuery != "" then Search(v.searchQuery, v.filter, v.pageIndex) else List(v.filter, v.pageIndex)
  {
    var key := CurrentKey(v);
    var hasCached := key in v.mailCache;
    var request := if v.searchQuery != "" then Search(v.searchQuery, v.filter, v.pageIndex) else List(v.filter, v.pageIndex);
    (v.(loading := if hasCached then v.loading else true, fetchSeq := v.fetchSeq + 1),
     FetchTicket(v.fetchSeq + 1, key, hasCached, request))
  }

  /**
   * The rest of `fetchMails`, once the response (or error) arrives: nothing
   * happens unless no newer fetch was started; a page is shown and cached
   * under the ticket's key; an error blanks the list only when nothing was cached.
   */
  function FinishFetchSpec(v: MailView, t: FetchTicket, response: Result<ListResponse, string>): (r: MailView)
    ensures t.number != v.fetchSeq ==> r == v
    ensures r.fetchSeq == v.fetchSeq
  {
    if t.number != v.fetchSeq then v
    else match response
      case Ok(res) =>
        var page := CachedPage(OrEmpty(res.mails), res.pageNum, res.total);
        v.(mails := page.mails, pageCount := page.pageCount, total := page.total, selectedIds := {},
           loading := false, mailCache := v.mailCache[t.key := page])
      case Err(_) =>
        if !t.hasCached then v.(mails := [], loading := false) else v.(loading := false)
  }

  /** Of two fetches in flight, the older one's response or error is discarded. */
  lemma StaleResponseDiscarded(v: MailView, response: Result<ListResponse, string>)
    ensures var (v1, t1) := StartFetchSpec(v);
      var (v2, t2) := StartFetchSpec(v1);
      FinishFetchSpec(v2, t1, response) == v2
  {
  }

  /** The newest fetch's page is shown, cached under its key, and clears the loading flag. */
  lemma LatestResponseShown(v: MailView, res: ListResponse)
    ensures var (v1, t) := StartFetchSpec(v);
      var r := FinishFetchSpec(v1, t, Ok(res));
      && r.mails == OrEmpty(res.mails) && !r.loading && r.selectedIds == {}
      && CurrentKey(v) in r.mailCache && r.mailCache[CurrentKey(v)].mails == OrEmpty(res.mails)
      && forall k :: k in v.mailCache && k != CurrentKey(v) ==> k in r.mailCache && r.mailCache[k] == v.mailCache[k]
  {
  }

  /** A failed fetch keeps a cached page on screen and blanks the list otherwise. */
  lemma FailedFetchKeepsCachedPage(v: MailView, error: string)
    ensures var (v1, t) := StartFetchSpec(v);
      var r := FinishFetchSpec(v1, t, Err(error));
      && !r.loading
      && r.mails == if CurrentKey(v) in v.mailCache then v.mails else []
  {
  }

  /** `setFilter`: first page of the filter, no search and no selection; then a fetch. */
  function SetFilterSpec(v: MailView, filter: FilterType): (r: (MailView, FetchTicket)) {
    var v1 := v.(filter := filter, pageIndex := 1, searchQuery := "", selectedMailId := None,
                 selectedMailDetail := None, selectedIds := {});
    StartFetchSpec(ShowCached(v1, NatToString(FilterCode(filter)) + ":1"))
  }

  /** `setSearchQuery`: first page of the search, no selection; then a fetch. */
  function SetSearchQuerySpec(v: MailView, query: string): (r: (MailView, FetchTicket)) {
    var v1 := v.(searchQuery := query, pageIndex := 1, selectedMailId := None, selectedMailDetail := None,
                 selectedIds := {});
    StartFetchSpec(ShowCached(v1, CacheKey(query, v.filter, 1)))
  }

  /** `clearSearch`. */
  function ClearSearchSpec(v: MailView): (r: (MailView, FetchTicket)) {
    var v1 := v.(searchQuery := "", pageIndex := 1, selectedMailId := None, selectedMailDetail := None,
                 selectedIds := {});
    StartFetchSpec(ShowCached(v1, NatToString(FilterCode(v.filter)) + ":1"))
  }

  /** `setPage`: the page, no batch selection; then a fetch. */
  function SetPageSpec(v: MailView, page: int): (r: (MailView, FetchTicket)) {
    var v1 := v.(pageIndex := page, selectedIds := {});
    StartFetchSpec(ShowCached(v1, CacheKey(v.searchQuery, v.filter, page)))
  }

  /**
   * Each navigation looks the cache up under the very key its fetch will
   * store the response under, and the fetch is for the page navigated to.
   */
  lemma NavigationKeysAgree(v: MailView, filter: FilterType, query: string, page: int)
    ensures var (r, t) := SetFilterSpec(v, filter);
      t.key == NatToString(FilterCode(filter)) + ":1" && r.filter == filter && r.pageIndex == 1 && r.searchQuery == ""
    ensures var (r, t) := SetSearchQuerySpec(v, query);
      t.key == CacheKey(query, v.filter, 1) && r.searchQuery == query && r.pageIndex == 1
    ensures var (r, t) := ClearSearchSpec(v);
      t.key == NatToString(FilterCode(v.filter)) + ":1" && r.searchQuery == "" && r.pageIndex == 1
    ensures var (r, t) := SetPageSpec(v, page);
      t.key == CacheKey(v.searchQuery, v.filter, page) && r.pageIndex == page
  {
  }

  /** Clearing the search is searching for the empty query. */
  lemma ClearSearchIsEmptyQuery(v: MailView)
    ensures ClearSearchSpec(v) == SetSearchQuerySpec(v, "")
  {
    assert IntToString(1) == "1";
    assert NatToString(FilterCode(v.filter)) + ":1" == CacheKey("", v.filter, 1);
    var v1 := v.(searchQuery := "", pageIndex := 1, selectedMailId := None, selectedMailDetail := None,
                 selectedIds := {});
    assert ClearSearchSpec(v) == StartFetchSpec(ShowCached(v1, CacheKey("", v.filter, 1)));
  }

  // ---- Status updates ----

  datatype StatusChange = ReadChange(read: ReadStatus) | MarkChange(mark: MarkType)

  /** The `updateMailStatus` request: (message id, mailbox) of each target, and the change. */
  datatype StatusUpdate = StatusUpdate(targets: seq<(string, MailBoxType)>, change: StatusChange)

  function TargetOf(m: MailItem): (string, MailBoxType) {
    (m.messageId, m.mailbox)
  }

  function Max0(x: int): (r: int)
    ensures r >= 0 && r >= x && (r == 0 || r == x)
  {
    if x < 0 then 0 else x
  }

  /** `mails.map(m => m.message_id === id ? {...m, read} : m)`: the batch update for the one id. */
  function WithRead(mails: seq<MailItem>, id: string, read: ReadStatus): (r: seq<MailItem>)
    ensures |r| == |mails|
    ensures forall i :: 0 <= i < |mails| ==> r[i] == if mails[i].messageId == id then mails[i].(read := read) else mails[i]
  {
    SelectedWithRead(mails, {id}, read)
  }

  /** `mails.map(m => m.message_id === id ? {...m, mark} : m)`: the batch update for the one id. */
  function WithMark(mails: seq<MailItem>, id: string, mark: MarkType): (r: seq<MailItem>)
    ensures |r| == |mails|
    ensures forall i :: 0 <= i < |mails| ==> r[i] == if mails[i].messageId == id then mails[i].(mark := mark) else mails[i]
  {
    SelectedWithMark(mails, {id}, mark)
  }

  /** The open detail with the same change, when it shows that mail. */
  function DetailWithRead(d: Option<MailDetail>, id: string, read: ReadStatus): Option<MailDetail> {
    if d.Some? && d.value.item.messageId == id then Some(d.value.(item := d.value.item.(read := read))) else d
  }

  function DetailWithMark(d: Option<MailDetail>, id: string, mark: MarkType): Option<MailDetail> {
    if d.Some? && d.value.item.messageId == id then Some(d.value.(item := d.value.item.(mark := mark))) else d
  }

  function SingleUpdate(mail: MailItem, change: StatusChange): StatusUpdate {
    StatusUpdate([TargetOf(mail)], change)
  }

  /** `markAsRead`: after a successful update the mail reads as read and the counter drops by one, never below 0. */
  function MarkReadSpec(v: MailView, mail: MailItem, ok: bool): (r: MailView)
    ensures !ok ==> r == v
    ensures ok ==> r.unreadCount == Max0(v.unreadCount - 1)
  {
    if !ok then v
    else v.(mails := WithRead(v.mails, mail.messageId, ReadStatus.Read), unreadCount := Max0(v.unreadCount - 1),
            selectedMailDetail := DetailWithRead(v.selectedMailDetail, mail.messageId, ReadStatus.Read))
  }

  /** `markAsUnread`: the counter rises by one. */
  function MarkUnreadSpec(v: MailView, mail: MailItem, ok: bool): (r: MailView)
    ensures !ok ==> r == v
    ensures ok ==> r.unreadCount == v.unreadCount + 1
  {
    if !ok then v
    else v.(mails := WithRead(v.mails, mail.messageId, ReadStatus.Unread), unreadCount := v.unreadCount + 1,
            selectedMailDetail := DetailWithRead(v.selectedMailDetail, mail.messageId, ReadStatus.Unread))
  }

  /** The unread counter stays non-negative under both single-mail read actions. */
  lemma UnreadCountNonNegative(v: MailView, mail: MailItem, ok: bool)
    requires v.unreadCount >= 0
    ensures MarkReadSpec(v, mail, ok).unreadCount >= 0 && MarkUnreadSpec(v, mail, ok).unreadCount >= 0
  {
  }

  /** A read action changes only the entries of that mail, and each of them only in its read status. */
  lemma ReadActionTouchesOnlyThatMail(v: MailView, mail: MailItem, i: int)
    requires 0 <= i < |v.mails|
    ensures var r := MarkReadSpec(v, mail, true);
      r.mails[i] != v.mails[i] ==> v.mails[i].messageId == mail.messageId && r.mails[i] == v.mails[i].(read := ReadStatus.Read)
    ensures var r := MarkUnreadSpec(v, mail, true);
      r.mails[i] != v.mails[i] ==> v.mails[i].messageId == mail.messageId && r.mails[i] == v.mails[i].(read := ReadStatus.Unread)
  {
  }

  /** The mark `toggleStar` sets: Starred becomes Normal, any other mark becomes Starred. */
  function ToggledMark(mark: MarkType): (r: MarkType)
    ensures r == MarkType.Normal <==> mark == MarkType.Starred
    ensures r != MarkType.Normal ==> r == MarkType.Starred
  {
    if mark == MarkType.Starred then MarkType.Normal else MarkType.Starred
  }

  /** `toggleStar`: every listed entry with that id, and the open detail of it, take the toggled mark. */
  function ToggleStarSpec(v: MailView, mail: MailItem, ok: bool): (r: MailView)
    ensures !ok ==> r == v
    ensures |r.mails| == |v.mails|
    ensures ok ==> forall i :: 0 <= i < |v.mails| && v.mails[i].messageId == mail.messageId ==> r.mails[i].mark == ToggledMark(mail.mark)
  {
    if !ok then v
    else
      var mark := ToggledMark(mail.mark);
      v.(mails := WithMark(v.mails, mail.messageId, mark),
         selectedMailDetail := DetailWithMark(v.selectedMailDetail, mail.messageId, mark))
  }

  /**
   * Starring twice (the second time with the mail as the first left it)
   * restores every entry of that mail that was Normal or Starred as the
   * caller saw it, and leaves every other entry alone.
   */
  lemma ToggleStarTwice(v: MailView, mail: MailItem)
    requires mail.mark == MarkType.Normal || mail.mark == MarkType.Starred
    ensures var once := ToggleStarSpec(v, mail, true);
      var twice := ToggleStarSpec(once, mail.(mark := ToggledMark(mail.mark)), true);
      forall i :: 0 <= i < |v.mails| ==>
        twice.mails[i] == if v.mails[i].messageId == mail.messageId then v.mails[i].(mark := mail.mark) else v.mails[i]
  {
  }

  /** The mark `deleteMail` sets: Deleted inside the trash, Trash elsewhere. */
  function DeleteMark(filter: FilterType): MarkType {
    if filter == FilterType.Trash then MarkType.Deleted else MarkType.Trash
  }

  /** The list without the mails whose id is in `ids`. */
  function Excluding(mails: seq<MailItem>, ids: set<string>): seq<MailItem> {
    Filter(Outside(ids), mails)
  }

  /** The listed mails whose id is in `ids`. */
  function Among(mails: seq<MailItem>, ids: set<string>): seq<MailItem> {
    Filter(Inside(ids), mails)
  }

  /** The two tests `filter` applies by id. */
  function Outside(ids: set<string>): MailItem -> bool {
    (m: MailItem) => m.messageId !in ids
  }

  function Inside(ids: set<string>): MailItem -> bool {
    (m: MailItem) => m.messageId in ids
  }

  /**
   * `deleteMail`/`moveTo` after a successful update: the mail leaves the
   * list, the total drops by one, its selection is cleared, the page cache
   * is emptied.
   */
  function RemoveMailSpec(v: MailView, mail: MailItem, ok: bool): (r: MailView)
    ensures !ok ==> r == v
    ensures ok ==> r.total == v.total - 1 && r.mailCache == map[]
    ensures ok ==> (r.selectedMailId.None? <==> v.selectedMailId.None? || v.selectedMailId == Some(mail.messageId))
  {
    if !ok then v
    else
      var cleared := v.selectedMailId == Some(mail.messageId);
      v.(mails := Excluding(v.mails, {mail.messageId}), total := v.total - 1,
         selectedMailId := if cleared then None else v.selectedMailId,
         selectedMailDetail := if cleared then None else v.selectedMailDetail,
         mailCache := map[])
  }

  /** The removal keeps every other mail, and only those, and drops every entry of the removed one. */
  lemma RemovalPartitionsList(v: MailView, mail: MailItem)
    ensures var r := RemoveMailSpec(v, mail, true);
      && (forall m :: m in r.mails <==> m in v.mails && m.messageId != mail.messageId)
      && multiset(r.mails) + multiset(Among(v.mails, {mail.messageId})) == multiset(v.mails)
  {
    FilterMembers(Outside({mail.messageId}), v.mails);
    FilterPartition(Outside({mail.messageId}), Inside({mail.messageId}), v.mails);
  }

  // ---- Selection ----

  /** `toggleSelect`: adds an absent id, removes a present one. */
  function ToggleSelectSpec(v: MailView, id: string): (r: MailView)
    ensures id in r.selectedIds <==> id !in v.selectedIds
    ensures forall x :: x != id ==> (x in r.selectedIds <==> x in v.selectedIds)
  {
    if id in v.selectedIds then v.(selectedIds := v.selectedIds - {id}) else v.(selectedIds := v.selectedIds + {id})
  }

  lemma ToggleSelectTwice(v: MailView, id: string)
    ensures ToggleSelectSpec(ToggleSelectSpec(v, id), id) == v
  {
    var r := ToggleSelectSpec(ToggleSelectSpec(v, id), id);
    assert r.selectedIds == v.selectedIds;
  }

  /** `selectAll`: the ids of the listed mails. */
  function SelectAllSpec(v: MailView): (r: MailView)
    ensures forall i :: 0 <= i < |v.mails| ==> v.mails[i].messageId in r.selectedIds
    ensures forall x :: x in r.selectedIds ==> exists i :: 0 <= i < |v.mails| && v.mails[i].messageId == x
  {
    v.(selectedIds := set i | 0 <= i < |v.mails| :: v.mails[i].messageId)
  }

  // ---- Batch actions ----

  /** The batch targets: listed, selected, and passing the action's test. */
  function Targets(v: MailView, test: MailItem -> bool): seq<MailItem> {
    Filter(SelectedAnd(v.selectedIds, test), v.mails)
  }

  function SelectedAnd(ids: set<string>, test: MailItem -> bool): MailItem -> bool {
    (m: MailItem) => m.messageId in ids && test(m)
  }

  lemma SelectedAndHolds(ids: set<string>, test: MailItem -> bool, m: MailItem)
    ensures SelectedAnd(ids, test)(m) <==> m.messageId in ids && test(m)
  {
  }

  function BatchRequest(targets: seq<MailItem>, change: StatusChange): StatusUpdate {
    StatusUpdate(Map(TargetOf, targets), change)
  }

  /**
   * A batch status action with its targets' test, new field value and
   * counter change. `None` for the request when nothing is selected (no
   * change) or no target passes (the selection is cleared).
   */
  datatype BatchStep = BatchStep(view: MailView, request: Option<StatusUpdate>)

  function IsUnread(m: MailItem): bool { m.read == ReadStatus.Unread }
  function IsRead(m: MailItem): bool { m.read == ReadStatus.Read }
  function IsUnstarred(m: MailItem): bool { m.mark != MarkType.Starred }

  /** Every selected listed entry with its read status set. */
  function SelectedWithRead(mails: seq<MailItem>, ids: set<string>, read: ReadStatus): (r: seq<MailItem>)
    ensures |r| == |mails|
    ensures forall i :: 0 <= i < |mails| ==> r[i] == if mails[i].messageId in ids then mails[i].(read := read) else mails[i]
  {
    seq(|mails|, i requires 0 <= i < |mails| => if mails[i].messageId in ids then mails[i].(read := read) else mails[i])
  }

  function SelectedWithMark(mails: seq<MailItem>, ids: set<string>, mark: MarkType): (r: seq<MailItem>)
    ensures |r| == |mails|
    ensures forall i :: 0 <= i < |mails| ==> r[i] == if mails[i].messageId in ids then mails[i].(mark := mark) else mails[i]
  {
    seq(|mails|, i requires 0 <= i < |mails| => if mails[i].messageId in ids then mails[i].(mark := mark) else mails[i])
  }

  /** `batchMarkRead`. */
  function BatchMarkReadSpec(v: MailView, ok: bool): (r: BatchStep)
    ensures v.selectedIds == {} ==> r == BatchStep(v, None)
  {
    if v.selectedIds == {} then BatchStep(v, None)
    else
      var targets := Targets(v, IsUnread);
      if targets == [] then BatchStep(v.(selectedIds := {}), None)
      else
        var request := Some(BatchRequest(targets, ReadChange(ReadStatus.Read)));
        if !ok then BatchStep(v, request)
        else BatchStep(v.(mails := SelectedWithRead(v.mails, v.selectedIds, ReadStatus.Read),
                          unreadCount := Max0(v.unreadCount - |targets|), selectedIds := {}), request)
  }

  /** `batchMarkUnread`. */
  function BatchMarkUnreadSpec(v: MailView, ok: bool): (r: BatchStep)
    ensures v.selectedIds == {} ==> r == BatchStep(v, None)
  {
    if v.selectedIds == {} then BatchStep(v, None)
    else
      var targets := Targets(v, IsRead);
      if targets == [] then BatchStep(v.(selectedIds := {}), None)
      else
        var request := Some(BatchRequest(targets, ReadChange(ReadStatus.Unread)));
        if !ok then BatchStep(v, request)
        else BatchStep(v.(mails := SelectedWithRead(v.mails, v.selectedIds, ReadStatus.Unread),
                          unreadCount := v.unreadCount + |targets|, selectedIds := {}), request)
  }

  /** `batchStar`. */
  function BatchStarSpec(v: MailView, ok: bool): (r: BatchStep)
    ensures v.selectedIds == {} ==> r == BatchStep(v, None)
  {
    if v.selectedIds == {} then BatchStep(v, None)
    else
      var targets := Targets(v, IsUnstarred);
      if targets == [] then BatchStep(v.(selectedIds := {}), None)
      else
        var request := Some(BatchRequest(targets, MarkChange(MarkType.Starred)));
        if !ok then BatchStep(v, request)
        else BatchStep(v.(mails := SelectedWithMark(v.mails, v.selectedIds, MarkType.Starred), selectedIds := {}), request)
  }

  /**
   * `batchMarkRead` changes only selected unread entries, each to read, and
   * lowers the counter by exactly the number of those entries, floored at 0;
   * its request names exactly those entries.
   */
  lemma BatchMarkReadTouchesSelectedUnread(v: MailView, ok: bool, i: int)
    requires 0 <= i < |v.mails|
    ensures var r := BatchMarkReadSpec(v, ok);
      && (r.view.mails[i] != v.mails[i] ==>
            v.mails[i].messageId in v.selectedIds && v.mails[i].read == ReadStatus.Unread && r.view.mails[i] == v.mails[i].(read := ReadStatus.Read))
      && (r.request.Some? && ok ==> r.view.unreadCount == Max0(v.unreadCount - |Targets(v, IsUnread)|))
      && (r.request.Some? ==> r.request.value.targets == Map(TargetOf, Targets(v, IsUnread)))
      && (v.mails[i].messageId in v.selectedIds && v.mails[i].read == ReadStatus.Unread && ok ==> r.view.mails[i].read == ReadStatus.Read)
  {
    if v.mails[i].messageId in v.selectedIds && v.mails[i].read == ReadStatus.Unread {
      var f := SelectedAnd(v.selectedIds, IsUnread);
      FilterMembers(f, v.mails);
      SelectedAndHolds(v.selectedIds, IsUnread, v.mails[i]);
      assert v.mails[i] in Targets(v, IsUnread);
    }
  }

  /**
   * `batchMarkUnread` changes only selected read entries, each to unread, and
   * raises the counter by exactly the number of those entries; its request
   * names exactly those entries.
   */
  lemma BatchMarkUnreadTouchesSelectedRead(v: MailView, ok: bool, i: int)
    requires 0 <= i < |v.mails|
    ensures var r := BatchMarkUnreadSpec(v, ok);
      && (r.view.mails[i] != v.mails[i] ==>
            v.mails[i].messageId in v.selectedIds && v.mails[i].read == ReadStatus.Read && r.view.mails[i] == v.mails[i].(read := ReadStatus.Unread))
      && (r.request.Some? && ok ==> r.view.unreadCount == v.unreadCount + |Targets(v, IsRead)|)
      && (r.request.Some? ==> r.request.value.targets == Map(TargetOf, Targets(v, IsRead)))
      && (v.mails[i].messageId in v.selectedIds && v.mails[i].read == ReadStatus.Read && ok ==> r.view.mails[i].read == ReadStatus.Unread)
  {
    if v.mails[i].messageId in v.selectedIds && v.mails[i].read == ReadStatus.Read {
      var f := SelectedAnd(v.selectedIds, IsRead);
      FilterMembers(f, v.mails);
      SelectedAndHolds(v.selectedIds, IsRead, v.mails[i]);
      assert v.mails[i] in Targets(v, IsRead);
    }
  }

  /** `batchStar` stars every selected entry and changes nothing else in the list. */
  lemma BatchStarStarsSelection(v: MailView, i: int)
    requires 0 <= i < |v.mails|
    requires Targets(v, IsUnstarred) != []
    ensures var r := BatchStarSpec(v, true);
      && r.view.mails[i] == (if v.mails[i].messageId in v.selectedIds then v.mails[i].(mark := MarkType.Starred) else v.mails[i])
      && r.view.selectedIds == {}
  {
    assert v.selectedIds != {} by {
      var f := SelectedAnd(v.selectedIds, IsUnstarred);
      FilterMembers(f, v.mails);
      var m := Targets(v, IsUnstarred)[0];
      assert m in Filter(f, v.mails);
      assert m.messageId in v.selectedIds;
    }
  }

  /** `batchDelete`, apart from the detail cache. */
  function BatchDeleteSpec(v: MailView, ok: bool): (r: BatchStep)
    ensures v.selectedIds == {} ==> r == BatchStep(v, None)
    ensures v.selectedIds != {} ==> r.request.Some? && r.request.value.change == MarkChange(DeleteMark(v.filter))
    ensures v.selectedIds != {} && ok ==> r.view.total >= 0 && r.view.selectedIds == {} && r.view.mailCache == map[]
  {
    if v.selectedIds == {} then BatchStep(v, None)
    else
      var targets := Among(v.mails, v.selectedIds);
      var request := Some(BatchRequest(targets, MarkChange(DeleteMark(v.filter))));
      if !ok then BatchStep(v, request)
      else
        var cleared := v.selectedMailId.GetOr("") in v.selectedIds;
        BatchStep(v.(mails := Excluding(v.mails, v.selectedIds), total := Max0(v.total - |targets|), selectedIds := {},
                     selectedMailId := if cleared then None else v.selectedMailId,
                     selectedMailDetail := if cleared then None else v.selectedMailDetail,
                     mailCache := map[]), request)
  }

  /** A successful batch delete removes exactly the selected mails, keeping the rest, and the total follows. */
  lemma BatchDeletePartitions(v: MailView)
    requires v.selectedIds != {}
    ensures var r := BatchDeleteSpec(v, true);
      && multiset(r.view.mails) + multiset(Among(v.mails, v.selectedIds)) == multiset(v.mails)
      && (forall m :: m in r.view.mails ==> m.messageId !in v.selectedIds)
      && (v.total >= |v.mails| ==> r.view.total == v.total - |Among(v.mails, v.selectedIds)|)
  {
    FilterPartition(Outside(v.selectedIds), Inside(v.selectedIds), v.mails);
    FilterMembers(Outside(v.selectedIds), v.mails);
  }

  /** `emptyTrash`, apart from the fetch it starts after a successful update. */
  function EmptyTrashSpec(v: MailView, ok: bool): (r: BatchStep)
    ensures v.mails == [] ==> r == BatchStep(v, None)
    ensures v.mails != [] ==> r.request == Some(BatchRequest(v.mails, MarkChange(MarkType.Deleted)))
  {
    if v.mails == [] then BatchStep(v, None)
    else
      var request := Some(BatchRequest(v.mails, MarkChange(MarkType.Deleted)));
      if !ok then BatchStep(v, request)
      else BatchStep(v.(selectedIds := {}, selectedMailId := None, selectedMailDetail := None, mailCache := map[]), request)
  }

  /** `fetchStats`: the three counters from the server; unchanged on error. */
  datatype MailStats = MailStats(unread: int, spam: int, draft: int)

  function FetchStatsSpec(v: MailView, stats: Option<MailStats>): (r: MailView)
    ensures stats.None? ==> r == v
    ensures stats.Some? ==> r.unreadCount == stats.value.unread && r.mails == v.mails
  {
    if stats.None? then v
    else v.(unreadCount := stats.value.unread, spamCount := stats.value.spam, draftCount := stats.value.draft)
  }

  // ---- Selecting a mail ----

  /** `mails.find(m => m.message_id === id)`: the first listed mail with that id. */
  function FindMail(mails: seq<MailItem>, id: string): (r: Option<MailItem>)
    ensures r.Some? ==> r.value in mails && r.value.messageId == id
    ensures r.None? ==> forall m :: m in mails ==> m.messageId != id
  {
    if mails == [] then None
    else if mails[0].messageId == id then Some(mails[0])
    else FindMail(mails[1..], id)
  }

  /** Changing a read status changes only the read status of the mail found. */
  lemma {:induction false} FindMailAfterWithRead(mails: seq<MailItem>, x: string, read: ReadStatus, id: string)
    ensures var f := FindMail(mails, id);
      FindMail(WithRead(mails, x, read), id) == if f.Some? && f.value.messageId == x then Some(f.value.(read := read)) else f
  {
    if mails != [] {
      assert WithRead(mails, x, read)[1..] == WithRead(mails[1..], x, read);
      FindMailAfterWithRead(mails[1..], x, read, id);
    }
  }

  /** A list entry standing in for the detail while the body loads: no parts, no attachments. */
  function ListedAsDetail(m: MailItem): MailDetail {
    MailDetail(m, "", "", None)
  }

  /** The fetched detail with the list entry's mark and read status, which are fresher on the client. */
  function Merged(detail: MailDetail, mail: Option<MailItem>): (r: MailDetail)
    ensures r.partText == detail.partText && r.partHtml == detail.partHtml && r.attachments == detail.attachments
    ensures mail.Some? ==> r.item.mark == mail.value.mark && r.item.read == mail.value.read
  {
    if mail.Some? then detail.(item := detail.item.(mark := mail.value.mark, read := mail.value.read)) else detail
  }

  /** After a mail is shown, an unread list entry is marked read. */
  function AfterShow(v: MailView, mail: Option<MailItem>, markOk: bool): (MailView, Option<StatusUpdate>) {
    if mail.Some? && mail.value.read == ReadStatus.Unread
    then (MarkReadSpec(v, mail.value, markOk), Some(SingleUpdate(mail.value, ReadChange(ReadStatus.Read))))
    else (v, None)
  }

  /** A detail fetch `selectMail` awaits: the id and the list entry found for it. */
  datatype Pending = Pending(id: string, mail: Option<MailItem>)

  /**
   * A selection's outcome: the store, the detail cache's entries, the read
   * update sent, whether the mail was handed to the composer as a draft, and
   * the detail fetch still awaited.
   */
  datatype SelectStep = SelectStep(view: MailView, cache: seq<(string, MailDetail)>, markRequest: Option<StatusUpdate>,
                                   openDraft: bool, fetch: Option<Pending>)

  /**
   * The synchronous part of `selectMail`: no id clears the selection; a
   * listed draft goes to the composer; a cached detail is shown at once
   * (and becomes the most recently used); otherwise the list entry is shown
   * and the detail fetched.
   */
  function StartSelectSpec(v: MailView, cache: seq<(string, MailDetail)>, id: Option<string>, markOk: bool): (r: SelectStep)
    ensures id.None? || id.value == "" ==> r.view.selectedMailId.None? && r.view.selectedMailDetail.None? && r.cache == cache
    ensures r.openDraft <==> (id.Some? && id.value != "" && FindMail(v.mails, id.value).Some?
                              && FindMail(v.mails, id.value).value.mailbox == MailBoxType.Draft)
    ensures r.openDraft ==> r.view == v && r.cache == cache
    ensures r.fetch.Some? <==> (id.Some? && id.value != "" && !r.openDraft && Lookup(cache, id.value).None?)
    ensures r.fetch.Some? ==> (r.fetch.value == Pending(id.value, FindMail(v.mails, id.value))
                               && r.view.selectedMailId == id && r.cache == cache)
  {
    if id.None? || id.value == "" then SelectStep(v.(selectedMailId := None, selectedMailDetail := None), cache, None, false, None)
    else
      var mail := FindMail(v.mails, id.value);
      if mail.Some? && mail.value.mailbox == MailBoxType.Draft then SelectStep(v, cache, None, true, None)
      else match Lookup(cache, id.value)
        case Some(d) =>
          var (v2, request) := AfterShow(v.(selectedMailId := id, selectedMailDetail := Some(d)), mail, markOk);
          SelectStep(v2, Touch(cache, id.value, d), request, false, None)
        case None =>
          var shown := v.(selectedMailId := id, selectedMailDetail := if mail.Some? then Some(ListedAsDetail(mail.value)) else None);
          SelectStep(shown, cache, None, false, Some(Pending(id.value, mail)))
  }

  /**
   * The rest of `selectMail` as written, given the fetched detail (`None`
   * for an error or an empty answer): the merged detail is cached and shown
   * whatever has been selected since.
   */
  function FinishSelectAsWritten(v: MailView, cache: seq<(string, MailDetail)>, p: Pending, fetched: Option<MailDetail>,
                                 markOk: bool): (r: SelectStep)
    ensures fetched.Some? ==> (r.view.selectedMailDetail.Some?
                               && r.view.selectedMailDetail.value.partHtml == fetched.value.partHtml)
    ensures r.view.selectedMailId == v.selectedMailId
  {
    match fetched
    case None => SelectStep(v, cache, None, false, None)
    case Some(detail) =>
      var merged := Merged(detail, p.mail);
      var (v2, request) := AfterShow(v.(selectedMailDetail := Some(merged)), p.mail, markOk);
      SelectStep(v2, SetSpec(cache, DetailCacheSize, p.id, merged), request, false, None)
  }

  /**
   * The rest of `selectMail`, with the merged detail shown only while its
   * mail is still the selected one; it is cached either way.
   */
  function FinishSelectSpec(v: MailView, cache: seq<(string, MailDetail)>, p: Pending, fetched: Option<MailDetail>,
                            markOk: bool): (r: SelectStep)
    ensures r.view.selectedMailId == v.selectedMailId
    ensures v.selectedMailId != Some(p.id) && (p.mail.None? || p.mail.value.read != ReadStatus.Unread) ==> r.view == v
    ensures v.selectedMailId == Some(p.id) ==> r == FinishSelectAsWritten(v, cache, p, fetched, markOk)
  {
    match fetched
    case None => SelectStep(v, cache, None, false, None)
    case Some(detail) =>
      var merged := Merged(detail, p.mail);
      var shown := if v.selectedMailId == Some(p.id) then v.(selectedMailDetail := Some(merged)) else v;
      var (v2, request) := AfterShow(shown, p.mail, markOk);
      SelectStep(v2, SetSpec(cache, DetailCacheSize, p.id, merged), request, false, None)
  }

  /** `selectMail` when nothing else happens while its fetch is awaited. */
  function SelectMailSpec(v: MailView, cache: seq<(string, MailDetail)>, id: Option<string>, fetched: Option<MailDetail>,
                          markOk: bool): SelectStep {
    var s := StartSelectSpec(v, cache, id, markOk);
    if s.fetch.Some? then FinishSelectSpec(s.view, s.cache, s.fetch.value, fetched, markOk) else s
  }

  /**
   * A mail once fetched is served from the cache: selecting it again shows
   * the same body and attachments and does not depend on any further fetch.
   */
  lemma SecondSelectionFromCache(v: MailView, cache: seq<(string, MailDetail)>, id: string, detail: MailDetail,
                                 markOk: bool, fetched2: Option<MailDetail>, fetched3: Option<MailDetail>, markOk2: bool)
    requires DistinctKeys(cache) && |cache| <= Bound(DetailCacheSize)
    requires id != "" && Lookup(cache, id).None?
    requires FindMail(v.mails, id).None? || FindMail(v.mails, id).value.mailbox != MailBoxType.Draft
    ensures var r := SelectMailSpec(v, cache, Some(id), Some(detail), markOk);
      var again := SelectMailSpec(r.view, r.cache, Some(id), fetched2, markOk2);
      && Lookup(r.cache, id) == Some(Merged(detail, FindMail(v.mails, id)))
      && again == SelectMailSpec(r.view, r.cache, Some(id), fetched3, markOk2)
      && again.view.selectedMailDetail.Some?
      && again.view.selectedMailDetail.value.partText == detail.partText
      && again.view.selectedMailDetail.value.partHtml == detail.partHtml
      && again.view.selectedMailDetail.value.attachments == detail.attachments
  {
    var mail := FindMail(v.mails, id);
    var merged := Merged(detail, mail);
    SetThenLookup(cache, DetailCacheSize, id, merged);
    var s := StartSelectSpec(v, cache, Some(id), markOk);
    assert s.fetch == Some(Pending(id, mail));
    var r := FinishSelectSpec(s.view, s.cache, Pending(id, mail), Some(detail), markOk);
    assert r == SelectMailSpec(v, cache, Some(id), Some(detail), markOk);
    assert r.cache == SetSpec(cache, DetailCacheSize, id, merged);
    assert FindMail(r.view.mails, id).None? || FindMail(r.view.mails, id).value.mailbox != MailBoxType.Draft by {
      if mail.Some? && mail.value.read == ReadStatus.Unread && markOk {
        assert r.view.mails == WithRead(v.mails, id, ReadStatus.Read);
        FindMailAfterWithRead(v.mails, id, ReadStatus.Read, id);
      } else {
        assert r.view.mails == v.mails;
      }
    }
    CachedSelection(r.view, r.cache, id, fetched2, fetched3, markOk2);
  }

  /** Selecting a cached, non-draft mail shows its cached body without fetching. */
  lemma CachedSelection(v: MailView, cache: seq<(string, MailDetail)>, id: string, fetched2: Option<MailDetail>,
                        fetched3: Option<MailDetail>, markOk: bool)
    requires id != "" && Lookup(cache, id).Some?
    requires FindMail(v.mails, id).None? || FindMail(v.mails, id).value.mailbox != MailBoxType.Draft
    ensures var again := SelectMailSpec(v, cache, Some(id), fetched2, markOk);
      && again == SelectMailSpec(v, cache, Some(id), fetched3, markOk)
      && again.view.selectedMailDetail.Some?
      && again.view.selectedMailDetail.value.partText == Lookup(cache, id).value.partText
      && again.view.selectedMailDetail.value.partHtml == Lookup(cache, id).value.partHtml
      && again.view.selectedMailDetail.value.attachments == Lookup(cache, id).value.attachments
  {
  }

  /**
   * As written, a slow detail fetch overwrites a later selection: select
   * `a` (not cached), then `b` (cached); when `a`'s detail arrives, `b` is
   * still the selected id but `a`'s detail is shown. With the guard, `b`'s
   * detail stays.
   */
  lemma SlowDetailOverwritesLaterSelection(v: MailView, cache: seq<(string, MailDetail)>, a: string, b: string,
                                           detailA: MailDetail, detailB: MailDetail, markOk: bool)
    requires a != "" && b != "" && a != b
    requires FindMail(v.mails, a).None? && FindMail(v.mails, b).None?
    requires Lookup(cache, a).None? && Lookup(cache, b) == Some(detailB) && detailA != detailB
    ensures var s1 := StartSelectSpec(v, cache, Some(a), markOk);
      var s2 := StartSelectSpec(s1.view, s1.cache, Some(b), markOk);
      && s1.fetch == Some(Pending(a, None))
      && var late := FinishSelectAsWritten(s2.view, s2.cache, s1.fetch.value, Some(detailA), markOk);
      && var guarded := FinishSelectSpec(s2.view, s2.cache, s1.fetch.value, Some(detailA), markOk);
      && late.view.selectedMailId == Some(b) && late.view.selectedMailDetail == Some(detailA)
      && guarded.view.selectedMailId == Some(b) && guarded.view.selectedMailDetail == Some(detailB)
  {
  }

  // ---- The store ----

  /**
   * The store's state, and the module-level detail cache and request
   * counter beside it. Each action is one method; an action that awaits an
   * API call takes the call's outcome as a parameter, and `fetchMails` and
   * `selectMail`, whose awaits other actions may interleave with, are split
   * at the await.
   */
  class MailStore {
    var filter: FilterType
    var pageIndex: int
    var pageCount: int
    var total: int
    var searchQuery: string
    var mails: seq<MailItem>
    var loading: bool
    var mailCache: map<string, CachedPage>
    var unreadCount: int
    var spamCount: int
    var draftCount: int
    var selectedMailId: Option<string>
    var selectedMailDetail: Option<MailDetail>
    var selectedIds: set<string>
    var fetchSeq: int
    const detailCache: LruCache<MailDetail>

    predicate Valid()
      reads this, detailCache
    {
      detailCache.Valid() && detailCache.maxSize == DetailCacheSize
    }

    function View(): MailView
      reads this
    {
      MailView(filter, pageIndex, pageCount, total, searchQuery, mails, loading, mailCache, unreadCount, spamCount,
               draftCount, selectedMailId, selectedMailDetail, selectedIds, fetchSeq)
    }

    constructor ()
      ensures Valid() && View() == InitialView() && fresh(detailCache) && detailCache.entries == []
    {
      filter, pageIndex, pageCount, total, searchQuery := FilterType.Inbox, 1, 0, 0, "";
      mails, loading, mailCache := [], false, map[];
      unreadCount, spamCount, draftCount := 0, 0, 0;
      selectedMailId, selectedMailDetail, selectedIds, fetchSeq := None, None, {}, 0;
      detailCache := new LruCache(DetailCacheSize);
    }

    /** The cached page under `key`, if any, goes on screen. */
    method ShowCachedPage(key: string)
      modifies this
      ensures View() == ShowCached(old(View()), key)
    {
      if key in mailCache {
        var c := mailCache[key];
        mails, pageCount, total := c.mails, c.pageCount, c.total;
      }
    }

    /** `fetchMails` up to its await. */
    method StartFetch() returns (t: FetchTicket)
      modifies this
      ensures (View(), t) == StartFetchSpec(old(View()))
    {
      var key := CacheKey(searchQuery, filter, pageIndex);
      var hasCached := key in mailCache;
      if !hasCached {
        loading := true;
      }
      fetchSeq := fetchSeq + 1;
      var request := if searchQuery != "" then Search(searchQuery, filter, pageIndex) else List(filter, pageIndex);
      t := FetchTicket(fetchSeq, key, hasCached, request);
    }

    /** `fetchMails` after its await. */
    method FinishFetch(t: FetchTicket, response: Result<ListResponse, string>)
      modifies this
      ensures View() == FinishFetchSpec(old(View()), t, response)
    {
      if t.number != fetchSeq {
        return;
      }
      match response
      case Ok(res) =>
        var page := CachedPage(OrEmpty(res.mails), res.pageNum, res.total);
        mails, pageCount, total := page.mails, page.pageCount, page.total;
        selectedIds, loading, mailCache := {}, false, mailCache[t.key := page];
      case Err(_) =>
        if !t.hasCached {
          mails := [];
        }
        loading := false;
    }

    /** No open mail and no batch selection. */
    method ClearSelected()
      modifies this
      ensures View() == old(View()).(selectedMailId := None, selectedMailDetail := None, selectedIds := {})
    {
      selectedMailId, selectedMailDetail, selectedIds := None, None, {};
    }

    method SetFilter(f: FilterType) returns (t: FetchTicket)
      modifies this
      ensures (View(), t) == SetFilterSpec(old(View()), f)
    {
      filter, pageIndex, searchQuery := f, 1, "";
      ClearSelected();
      ShowCachedPage(NatToString(FilterCode(f)) + ":1");
      t := StartFetch();
    }

    method SetSearchQuery(query: string) returns (t: FetchTicket)
      modifies this
      ensures (View(), t) == SetSearchQuerySpec(old(View()), query)
    {
      var key := CacheKey(query, filter, 1);
      searchQuery, pageIndex := query, 1;
      ClearSelected();
      ShowCachedPage(key);
      t := StartFetch();
    }

    method ClearSearch() returns (t: FetchTicket)
      modifies this
      ensures (View(), t) == ClearSearchSpec(old(View()))
    {
      searchQuery, pageIndex := "", 1;
      ClearSelected();
      ShowCachedPage(NatToString(FilterCode(filter)) + ":1");
      t := StartFetch();
    }

    method SetPage(page: int) returns (t: FetchTicket)
      modifies this
      ensures (View(), t) == SetPageSpec(old(View()), page)
    {
      var key := CacheKey(searchQuery, filter, page);
      pageIndex, selectedIds := page, {};
      ShowCachedPage(key);
      t := StartFetch();
    }

    /** `fetchStats`, given the stats or `None` for an error. */
    method FetchStats(stats: Option<MailStats>)
      modifies this
      ensures View() == FetchStatsSpec(old(View()), stats)
    {
      if stats.Some? {
        unreadCount, spamCount, draftCount := stats.value.unread, stats.value.spam, stats.value.draft;
      }
    }

    method MarkAsRead(mail: MailItem, ok: bool) returns (request: StatusUpdate)
      modifies this
      ensures request == SingleUpdate(mail, ReadChange(ReadStatus.Read))
      ensures View() == MarkReadSpec(old(View()), mail, ok)
    {
      request := SingleUpdate(mail, ReadChange(ReadStatus.Read));
      if ok {
        mails := WithRead(mails, mail.messageId, ReadStatus.Read);
        unreadCount := Max0(unreadCount - 1);
        selectedMailDetail := DetailWithRead(selectedMailDetail, mail.messageId, ReadStatus.Read);
      }
    }

    method MarkAsUnread(mail: MailItem, ok: bool) returns (request: StatusUpdate)
      modifies this
      ensures request == SingleUpdate(mail, ReadChange(ReadStatus.Unread))
      ensures View() == MarkUnreadSpec(old(View()), mail, ok)
    {
      request := SingleUpdate(mail, ReadChange(ReadStatus.Unread));
      if ok {
        mails := WithRead(mails, mail.messageId, ReadStatus.Unread);
        unreadCount := unreadCount + 1;
        selectedMailDetail := DetailWithRead(selectedMailDetail, mail.messageId, ReadStatus.Unread);
      }
    }

    method ToggleStar(mail: MailItem, ok: bool) returns (request: StatusUpdate)
      modifies this
      ensures request == SingleUpdate(mail, MarkChange(ToggledMark(mail.mark)))
      ensures View() == ToggleStarSpec(old(View()), mail, ok)
    {
      var mark := ToggledMark(mail.mark);
      request := SingleUpdate(mail, MarkChange(mark));
      if ok {
        mails := WithMark(mails, mail.messageId, mark);
        selectedMailDetail := DetailWithMark(selectedMailDetail, mail.messageId, mark);
      }
    }

    /** The list and the open mail after `mail` left the folder; the page cache is emptied. */
    method Remove(mail: MailItem)
      modifies this
      ensures View() == RemoveMailSpec(old(View()), mail, true)
    {
      ghost var v := View();
      var cleared := selectedMailId == Some(mail.messageId);
      mails, total, mailCache, selectedMailId, selectedMailDetail :=
        Excluding(mails, {mail.messageId}), total - 1, map[],
        if cleared then None else selectedMailId, if cleared then None else selectedMailDetail;
      ghost var w := View();
      assert w == v.(mails := Excluding(v.mails, {mail.messageId}), total := v.total - 1,
                     selectedMailId := if cleared then None else v.selectedMailId,
                     selectedMailDetail := if cleared then None else v.selectedMailDetail, mailCache := map[]);
    }

    /**
     * `moveTo`: after a successful update the mail leaves the list and the
     * detail cache, and the counters are refetched (`stats`).
     */
    method MoveTo(mail: MailItem, mark: MarkType, ok: bool, stats: Option<MailStats>) returns (request: StatusUpdate)
      requires Valid()
      modifies this, detailCache
      ensures Valid()
      ensures request == SingleUpdate(mail, MarkChange(mark))
      ensures View() == if ok then FetchStatsSpec(RemoveMailSpec(old(View()), mail, true), stats) else old(View())
      ensures detailCache.entries == if ok then Without(old(detailCache.entries), mail.messageId) else old(detailCache.entries)
    {
      request := SingleUpdate(mail, MarkChange(mark));
      if ok {
        detailCache.Delete(mail.messageId);
        Remove(mail);
        FetchStats(stats);
      }
    }

    /** `deleteMail`: `moveTo` with the mark the filter calls for. */
    method DeleteMail(mail: MailItem, ok: bool, stats: Option<MailStats>) returns (request: StatusUpdate)
      requires Valid()
      modifies this, detailCache
      ensures Valid()
      ensures request == SingleUpdate(mail, MarkChange(DeleteMark(old(filter))))
      ensures View() == if ok then FetchStatsSpec(RemoveMailSpec(old(View()), mail, true), stats) else old(View())
      ensures detailCache.entries == if ok then Without(old(detailCache.entries), mail.messageId) else old(detailCache.entries)
    {
      request := MoveTo(mail, DeleteMark(filter), ok, stats);
    }

    method ToggleSelect(id: string)
      modifies this
      ensures View() == ToggleSelectSpec(old(View()), id)
    {
      if id in selectedIds {
        selectedIds := selectedIds - {id};
      } else {
        selectedIds := selectedIds + {id};
      }
    }

    method SelectAll()
      modifies this
      ensures View() == SelectAllSpec(old(View()))
    {
      selectedIds := set i | 0 <= i < |mails| :: mails[i].messageId;
    }

    method ClearSelection()
      modifies this
      ensures View() == old(View()).(selectedIds := {})
    {
      selectedIds := {};
    }

    /**
     * Every id in `ids` leaves the detail cache, in whatever order the set is
     * walked; the other entries keep their least-recently-used order.
     */
    method DeleteDetails(ids: set<string>)
      requires Valid()
      modifies detailCache
      ensures Valid()
      ensures detailCache.entries == WithoutAll(old(detailCache.entries), ids)
    {
      var remaining := ids;
      WithoutNone(detailCache.entries);
      assert ids - remaining == {};
      while remaining != {}
        invariant remaining <= ids
        invariant Valid()
        invariant detailCache.entries == WithoutAll(old(detailCache.entries), ids - remaining)
        decreases |remaining|
      {
        var id :| id in remaining;
        WithoutAfterWithoutAll(old(detailCache.entries), ids - remaining, id);
        detailCache.Delete(id);
        assert (ids - remaining) + {id} == ids - (remaining - {id});
        remaining := remaining - {id};
      }
      assert ids - remaining == ids;
    }

    /** The list and the open mail after the selected mails left the folder. */
    method RemoveSelected(removed: int)
      modifies this
      ensures var v := old(View()); var cleared := v.selectedMailId.GetOr("") in v.selectedIds;
        View() == v.(mails := Excluding(v.mails, v.selectedIds), total := Max0(v.total - removed), selectedIds := {},
                     selectedMailId := if cleared then None else v.selectedMailId,
                     selectedMailDetail := if cleared then None else v.selectedMailDetail, mailCache := map[])
    {
      ghost var v := View();
      var cleared := selectedMailId.GetOr("") in selectedIds;
      mails, total, selectedIds, mailCache, selectedMailId, selectedMailDetail :=
        Excluding(mails, selectedIds), Max0(total - removed), {}, map[],
        if cleared then None else selectedMailId, if cleared then None else selectedMailDetail;
      ghost var w := View();
      assert w == v.(mails := Excluding(v.mails, v.selectedIds), total := Max0(v.total - removed), selectedIds := {},
                     selectedMailId := if cleared then None else v.selectedMailId,
                     selectedMailDetail := if cleared then None else v.selectedMailDetail, mailCache := map[]);
    }

    /**
     * `batchDelete`: after a successful update the selected mails leave the
     * list and the detail cache, and the counters are refetched (`stats`).
     */
    method BatchDelete(ok: bool, stats: Option<MailStats>) returns (request: Option<StatusUpdate>)
      requires Valid()
      modifies this, detailCache
      ensures Valid()
      ensures var step := BatchDeleteSpec(old(View()), ok);
        && request == step.request
        && View() == if request.Some? && ok then FetchStatsSpec(step.view, stats) else step.view
      ensures detailCache.entries == if ok then WithoutAll(old(detailCache.entries), old(selectedIds)) else old(detailCache.entries)
    {
      if selectedIds == {} {
        WithoutNone(detailCache.entries);
        return None;
      }
      var targets := Among(mails, selectedIds);
      request := Some(BatchRequest(targets, MarkChange(DeleteMark(filter))));
      if ok {
        DeleteDetails(selectedIds);
        RemoveSelected(|targets|);
        FetchStats(stats);
      }
    }

    method BatchMarkRead(ok: bool) returns (request: Option<StatusUpdate>)
      modifies this
      ensures var step := BatchMarkReadSpec(old(View()), ok); View() == step.view && request == step.request
    {
      if selectedIds == {} {
        return None;
      }
      var v := View();
      var targets := Targets(v, IsUnread);
      if targets == [] {
        selectedIds := {};
        return None;
      }
      request := Some(BatchRequest(targets, ReadChange(ReadStatus.Read)));
      if ok {
        var marked := SelectedWithRead(mails, selectedIds, ReadStatus.Read);
        mails := marked;
        unreadCount, selectedIds := Max0(unreadCount - |targets|), {};
        ghost var w := View();
        assert w == v.(mails := marked, unreadCount := unreadCount, selectedIds := {});
      }
    }

    method BatchMarkUnread(ok: bool) returns (request: Option<StatusUpdate>)
      modifies this
      ensures var step := BatchMarkUnreadSpec(old(View()), ok); View() == step.view && request == step.request
    {
      if selectedIds == {} {
        return None;
      }
      var v := View();
      var targets := Targets(v, IsRead);
      if targets == [] {
        selectedIds := {};
        return None;
      }
      request := Some(BatchRequest(targets, ReadChange(ReadStatus.Unread)));
      if ok {
        var marked := SelectedWithRead(mails, selectedIds, ReadStatus.Unread);
        mails := marked;
        unreadCount, selectedIds := unreadCount + |targets|, {};
        ghost var w := View();
        assert w == v.(mails := marked, unreadCount := unreadCount, selectedIds := {});
      }
    }

    method BatchStar(ok: bool) returns (request: Option<StatusUpdate>)
      modifies this
      ensures var step := BatchStarSpec(old(View()), ok); View() == step.view && request == step.request
    {
      if selectedIds == {} {
        return None;
      }
      var targets := Targets(View(), IsUnstarred);
      if targets == [] {
        selectedIds := {};
        return None;
      }
      request := Some(BatchRequest(targets, MarkChange(MarkType.Starred)));
      if ok {
        mails, selectedIds := SelectedWithMark(mails, selectedIds, MarkType.Starred), {};
      }
    }

    /**
     * `emptyTrash`: after a successful update the selection and the page
     * cache are cleared, the list is refetched (the ticket) and so are the
     * counters (`stats`).
     */
    method EmptyTrash(ok: bool, stats: Option<MailStats>) returns (request: Option<StatusUpdate>, ticket: Option<FetchTicket>)
      modifies this
      ensures var step := EmptyTrashSpec(old(View()), ok);
        && request == step.request
        && if request.Some? && ok
           then var (v1, t) := StartFetchSpec(step.view); ticket == Some(t) && View() == FetchStatsSpec(v1, stats)
           else ticket == None && View() == step.view
    {
      request, ticket := None, None;
      if mails == [] {
        return;
      }
      request := Some(BatchRequest(mails, MarkChange(MarkType.Deleted)));
      if ok {
        ClearSelected();
        mailCache := map[];
        var t := StartFetch();
        ticket := Some(t);
        FetchStats(stats);
      }
    }

    /** A shown mail that is unread in the list is marked read. */
    method MarkShownRead(mail: Option<MailItem>, markOk: bool) returns (request: Option<StatusUpdate>)
      modifies this
      ensures (View(), request) == AfterShow(old(View()), mail, markOk)
    {
      request := None;
      if mail.Some? && mail.value.read == ReadStatus.Unread {
        var r := MarkAsRead(mail.value, markOk);
        request := Some(r);
      }
    }

    /** `selectMail` up to its await. */
    method StartSelect(id: Option<string>, markOk: bool) returns (markRequest: Option<StatusUpdate>, openDraft: bool,
                                                                  fetch: Option<Pending>)
      requires Valid()
      modifies this, detailCache
      ensures Valid()
      ensures var s := StartSelectSpec(old(View()), old(detailCache.entries), id, markOk);
        && View() == s.view && detailCache.entries == s.cache
        && markRequest == s.markRequest && openDraft == s.openDraft && fetch == s.fetch
    {
      markRequest, openDraft, fetch := None, false, None;
      if id.None? || id.value == "" {
        selectedMailId, selectedMailDetail := None, None;
        return;
      }
      var mail := FindMail(mails, id.value);
      if mail.Some? && mail.value.mailbox == MailBoxType.Draft {
        openDraft := true;
        return;
      }
      var cached := detailCache.Get(id.value);
      if cached.Some? {
        selectedMailId, selectedMailDetail := id, cached;
        markRequest := MarkShownRead(mail, markOk);
      } else {
        selectedMailId := id;
        selectedMailDetail := if mail.Some? then Some(ListedAsDetail(mail.value)) else None;
        fetch := Some(Pending(id.value, mail));
      }
    }

    /** `selectMail` after its await, showing the detail only while its mail is still selected. */
    method FinishSelect(p: Pending, fetched: Option<MailDetail>, markOk: bool) returns (markRequest: Option<StatusUpdate>)
      requires Valid()
      modifies this, detailCache
      ensures Valid()
      ensures var s := FinishSelectSpec(old(View()), old(detailCache.entries), p, fetched, markOk);
        View() == s.view && detailCache.entries == s.cache && markRequest == s.markRequest
    {
      markRequest := None;
      if fetched.Some? {
        var merged := Merged(fetched.value, p.mail);
        detailCache.Set(p.id, merged);
        if selectedMailId == Some(p.id) {
          selectedMailDetail := Some(merged);
        }
        markRequest := MarkShownRead(p.mail, markOk);
      }
    }
  }
}
