/**
 * The admin inbox (`components/admin/MessageViewer.jsx`): filtering by status and
 * by a search over sender and subject, five messages per page, read / unread /
 * archive / star / delete, the message dialog and the status counts.
 */
module MessageInbox {
  import opened Js
  import opened AdminLists

  /** A message as the inbox handles one (its body and date are only displayed). */
  datatype Message = Message(id: int, name: string, email: string, subject: string, status: string, priority: string, starred: bool)

  const ItemsPerPage := 5

  /** The messages the inbox starts with. */
  const InitialMessages: seq<Message> := [
    Message(1, "John Smith", "john.smith@email.com", "Product Inquiry", "unread", "normal", false),
    Message(2, "Sarah Johnson", "sarah.j@email.com", "Shipping Question", "read", "high", true),
    Message(3, "Michael Chen", "michael.c@email.com", "Technical Support", "archived", "urgent", false),
    Message(4, "Emily Rodriguez", "emily.r@email.com", "Partnership Opportunity", "read", "high", true),
    Message(5, "David Wilson", "david.w@email.com", "Return Request", "unread", "normal", false)]

  function StatusOf(m: Message): string
  {
    m.status
  }

  /** The message passes the status select and the search box. */
  predicate MessageMatches(filterStatus: string, search: string, m: Message)
  {
    (filterStatus == "all" || m.status == filterStatus)
    && (IncludesIgnoringCase(m.name, search) || IncludesIgnoringCase(m.email, search)
        || IncludesIgnoringCase(m.subject, search))
  }

  function Matching(filterStatus: string, search: string): Message -> bool
  {
    (m: Message) => MessageMatches(filterStatus, search, m)
  }

  /** `filteredMessages` */
  function Filtered(messages: seq<Message>, filterStatus: string, search: string): seq<Message>
  {
    Filter(messages, Matching(filterStatus, search))
  }

  /**
   * The filtered messages are exactly those matching the status and the search, in
   * their order; an empty search with 'all' shows every message.
   */
  lemma FilteredMeaning(messages: seq<Message>, filterStatus: string, search: string)
    ensures IsSubsequence(Filtered(messages, filterStatus, search), messages)
    ensures forall m :: m in Filtered(messages, filterStatus, search) <==>
      m in messages && MessageMatches(filterStatus, search, m)
    ensures filterStatus == "all" && search == "" ==> Filtered(messages, filterStatus, search) == messages
  {
    FilterIsSubsequence(messages, Matching(filterStatus, search));
    forall m | m in messages && MessageMatches(filterStatus, search, m)
      ensures m in Filtered(messages, filterStatus, search)
    {
      var k :| 0 <= k < |messages| && messages[k] == m;
    }
    if filterStatus == "all" && search == "" {
      forall m | m in messages ensures Matching(filterStatus, search)(m) {
        EmptyNeedleMatches(m.name);
      }
      FilterAll(messages, Matching(filterStatus, search));
    }
  }

  function HasId(id: int): Message -> bool
  {
    (m: Message) => m.id == id
  }

  function IdIsNot(id: int): Message -> bool
  {
    (m: Message) => m.id != id
  }

  function WithStatus(status: string): Message -> Message
  {
    (m: Message) => m.(status := status)
  }

  function FlipStar(m: Message): Message
  {
    m.(starred := !m.starred)
  }

  /** `messages.map((m) => m.id === id ? { ...m, status } : m)` */
  function SetStatus(messages: seq<Message>, id: int, status: string): (res: seq<Message>)
    ensures |res| == |messages|
    ensures forall k :: 0 <= k < |res| && messages[k].id == id ==> res[k] == messages[k].(status := status)
    ensures forall k :: 0 <= k < |res| && messages[k].id != id ==> res[k] == messages[k]
  {
    ReplaceWhere(messages, HasId(id), WithStatus(status))
  }

  /** `messages.map((m) => m.id === id ? { ...m, starred: !m.starred } : m)` */
  function ToggleStar(messages: seq<Message>, id: int): (res: seq<Message>)
    ensures |res| == |messages|
    ensures forall k :: 0 <= k < |res| && messages[k].id == id ==> res[k].starred == !messages[k].starred
    ensures forall k :: 0 <= k < |res| ==> res[k].(starred := messages[k].starred) == messages[k]
    ensures forall k :: 0 <= k < |res| && messages[k].id != id ==> res[k] == messages[k]
  {
    ReplaceWhere(messages, HasId(id), FlipStar)
  }

  /** Starring twice restores the list exactly. */
  lemma ToggleStarTwice(messages: seq<Message>, id: int)
    ensures ToggleStar(ToggleStar(messages, id), id) == messages
  {
    var once := ToggleStar(messages, id);
    var twice := ToggleStar(once, id);
    forall k | 0 <= k < |messages| ensures twice[k] == messages[k] {
      assert once[k].id == messages[k].id;
    }
  }

  /** Marking a message unread, once it was read, restores the list exactly. */
  lemma ReadThenUnreadRestores(messages: seq<Message>, id: int)
    requires forall m :: m in messages && m.id == id ==> m.status == "unread"
    ensures SetStatus(SetStatus(messages, id, "read"), id, "unread") == messages
  {
    var once := SetStatus(messages, id, "read");
    var twice := SetStatus(once, id, "unread");
    forall k | 0 <= k < |messages| ensures twice[k] == messages[k] {
      assert once[k].id == messages[k].id;
      assert messages[k] in messages;
    }
  }

  /** Marking read or archiving never adds an unread message. */
  lemma ReadOrArchiveNeverAddsUnread(messages: seq<Message>, id: int, status: string)
    requires status == "read" || status == "archived"
    ensures CountWhere(SetStatus(messages, id, status), KeyIs(StatusOf, "unread"))
      <= CountWhere(messages, KeyIs(StatusOf, "unread"))
  {
    ReplaceNeverAdds(messages, HasId(id), WithStatus(status), KeyIs(StatusOf, "unread"));
  }

  /** `stats.unread + stats.read + stats.archived == stats.total` when every status is one of the three. */
  lemma StatusCountsAddUp(messages: seq<Message>)
    requires forall m :: m in messages ==> m.status == "unread" || m.status == "read" || m.status == "archived"
    ensures CountWhere(messages, KeyIs(StatusOf, "unread")) + CountWhere(messages, KeyIs(StatusOf, "read"))
      + CountWhere(messages, KeyIs(StatusOf, "archived")) == |messages|
  {
    ThreeWayCount(messages, StatusOf, "unread", "read", "archived");
  }

  /** Deleting keeps exactly the messages with another id, in order. */
  lemma DeleteMeaning(messages: seq<Message>, id: int)
    ensures forall m :: m in Filter(messages, IdIsNot(id)) <==> m in messages && m.id != id
    ensures IsSubsequence(Filter(messages, IdIsNot(id)), messages)
  {
    FilterIsSubsequence(messages, IdIsNot(id));
    forall m | m in messages && m.id != id
      ensures m in Filter(messages, IdIsNot(id))
    {
      var k :| 0 <= k < |messages| && messages[k] == m;
    }
  }

  class MessageViewer {
    var messages: seq<Message>
    /** `selectedMessage`: the copy of the message the dialog shows, `None` when it is closed. */
    var selected: Option<Message>
    var filterStatus: string
    var searchTerm: string
    var currentPage: int

    constructor()
      ensures messages == InitialMessages && selected == None
      ensures filterStatus == "all" && searchTerm == "" && currentPage == 1
    {
      messages := InitialMessages;
      selected := None;
      filterStatus, searchTerm := "all", "";
      currentPage := 1;
    }

    /** `paginatedMessages` */
    function PageRows(): seq<Message>
      reads this
      requires currentPage >= 1
    {
      PageOf(Filtered(messages, filterStatus, searchTerm), currentPage, ItemsPerPage)
    }

    /** The dialog renders its "Mark as Unread" button: its copy of the message says 'read'. */
    predicate OffersMarkUnread()
      reads this
    {
      selected.Some? && selected.value.status == "read"
    }

    /** `handleMarkAsRead(id)` */
    method HandleMarkAsRead(id: int)
      modifies this`messages
      ensures messages == SetStatus(old(messages), id, "read")
    {
      messages := ReplaceWhere(messages, HasId(id), WithStatus("read"));
    }

    /** `handleMarkAsUnread(id)` */
    method HandleMarkAsUnread(id: int)
      modifies this`messages
      ensures messages == SetStatus(old(messages), id, "unread")
    {
      messages := ReplaceWhere(messages, HasId(id), WithStatus("unread"));
    }

    /** `handleArchive(id)` */
    method HandleArchive(id: int)
      modifies this`messages
      ensures messages == SetStatus(old(messages), id, "archived")
    {
      messages := ReplaceWhere(messages, HasId(id), WithStatus("archived"));
    }

    /** `handleToggleStar(id)` */
    method HandleToggleStar(id: int)
      modifies this`messages
      ensures messages == ToggleStar(old(messages), id)
    {
      messages := ReplaceWhere(messages, HasId(id), FlipStar);
    }

    /** `handleDelete(id)`: after confirmation, drops the message and closes the dialog. */
    method HandleDelete(id: int, confirmed: bool)
      modifies this`messages, this`selected
      ensures confirmed ==> messages == Filter(old(messages), IdIsNot(id)) && selected == None
      ensures !confirmed ==> messages == old(messages) && selected == old(selected)
    {
      if confirmed {
        messages := Filter(messages, IdIsNot(id));
        selected := None;
      }
    }

    /**
     * `handleViewMessage(message)`: opens the dialog on the clicked message and marks
     * it read in the list when it was unread.  The dialog keeps the copy taken before
     * the change, so right after opening an unread message it still says 'unread' and
     * offers no "Mark as Unread".
     */
    method HandleViewMessage(message: Message)
      modifies this`messages, this`selected
      ensures selected == Some(message)
      ensures message.status == "unread" ==> messages == SetStatus(old(messages), message.id, "read")
      ensures message.status != "unread" ==> messages == old(messages)
      ensures message.status == "unread" ==> !OffersMarkUnread()
    {
      selected := Some(message);
      if message.status == "unread" {
        HandleMarkAsRead(message.id);
      }
    }

    /** The dialog's Archive button: archives the shown message and closes the dialog. */
    method ArchiveSelected()
      requires selected.Some?
      modifies this`messages, this`selected
      ensures messages == SetStatus(old(messages), old(selected).value.id, "archived")
      ensures selected == None
    {
      HandleArchive(selected.value.id);
      selected := None;
    }
  }
}
