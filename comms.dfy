/** The staff communication log ("The Black Box"): a flat list of every
    message, each sender and receiver tagged with a role badge, narrowed by a
    case-insensitive search and a staff/client filter. There is no grouping
    into conversations: the list is shown in the order the backend sends it. */
module CommsLog {
  import opened Wrappers
  import opened Text
  import Seqs
  import Session

  datatype Message = Message(id: int, senderEmail: string, receiverEmail: string, content: string, timestamp: string)

  datatype Role = Owner | Staff | Client

  datatype Badge = Badge(caption: string, color: string, bgcolor: string)

  /** The classification behind `getRoleBadge`: the owner/admin test comes
      first, then staff/vanguard, and everything else is a client. */
  function Classify(email: string): (r: Role)
    ensures r == Owner <==> Contains(email, "owner") || Contains(email, "admin")
    ensures r == Staff <==> !Contains(email, "owner") && !Contains(email, "admin")
                            && (Contains(email, "staff") || Contains(email, "vanguard"))
    ensures r == Client <==> !Contains(email, "owner") && !Contains(email, "admin")
                             && !Contains(email, "staff") && !Contains(email, "vanguard")
  {
    if Contains(email, "owner") || Contains(email, "admin") then Owner
    else if Contains(email, "staff") || Contains(email, "vanguard") then Staff
    else Client
  }

  /** The chip drawn for each role. */
  function BadgeOf(role: Role): (b: Badge)
    ensures b.caption == "OWNER" <==> role == Owner
    ensures b.caption == "STAFF" <==> role == Staff
    ensures b.caption == "CLIENT" <==> role == Client
  {
    match role
    case Owner => Badge("OWNER", "#f59e0b", "rgba(245, 158, 11, 0.1)")
    case Staff => Badge("STAFF", "#3b82f6", "rgba(59, 130, 246, 0.1)")
    case Client => Badge("CLIENT", "#10b981", "rgba(16, 185, 129, 0.1)")
  }

  /** `getRoleBadge(email)`. */
  function RoleBadge(email: string): (b: Badge)
    ensures b.caption == "OWNER" <==> Contains(email, "owner") || Contains(email, "admin")
    ensures b.caption == "CLIENT" <==> Classify(email) == Client
    ensures b.caption == "STAFF" <==> Classify(email) == Staff
    ensures b.caption == "OWNER" ==> b.color == "#f59e0b" && b.bgcolor == "rgba(245, 158, 11, 0.1)"
    ensures b.caption == "STAFF" ==> b.color == "#3b82f6" && b.bgcolor == "rgba(59, 130, 246, 0.1)"
    ensures b.caption == "CLIENT" ==> b.color == "#10b981" && b.bgcolor == "rgba(16, 185, 129, 0.1)"
    ensures Contains(email, "admin") && Contains(email, "vanguard") ==> b.caption == "OWNER"
  {
    BadgeOf(Classify(email))
  }

  /** The filter chosen beside the search box. */
  datatype LogFilter = All | StaffOnly | ClientOnly

  /** The search term, lowercased, occurs in the lowercased content, sender or receiver. */
  predicate MatchesSearch(m: Message, term: string) {
    || Contains(Lower(m.content), Lower(term))
    || Contains(Lower(m.senderEmail), Lower(term))
    || Contains(Lower(m.receiverEmail), Lower(term))
  }

  /** The body of the `messages.filter` callback. The `vanguard` tests are case-sensitive. */
  predicate Keep(m: Message, term: string, f: LogFilter) {
    if !MatchesSearch(m, term) then false
    else match f
      case StaffOnly => Contains(m.senderEmail, "vanguard") || Contains(m.receiverEmail, "vanguard")
      case ClientOnly => !Contains(m.senderEmail, "vanguard") || !Contains(m.receiverEmail, "vanguard")
      case All => true
  }

  /** `filteredMessages`. */
  function FilteredMessages(ms: seq<Message>, term: string, f: LogFilter): seq<Message> {
    Seqs.Filter(ms, m => Keep(m, term, f))
  }

  /** The shown list is the message log with some entries dropped, in the original order. */
  lemma FilteredIsSubsequence(ms: seq<Message>, term: string, f: LogFilter)
    ensures Seqs.IsSubsequence(FilteredMessages(ms, term, f), ms)
  {
    Seqs.FilterIsSubsequence(ms, m => Keep(m, term, f));
  }

  /** With filter `all`, a message is shown iff the search matches it. */
  lemma AllFilterIff(ms: seq<Message>, term: string, m: Message)
    ensures m in FilteredMessages(ms, term, All) <==>
      m in ms && (|| Contains(Lower(m.content), Lower(term))
                  || Contains(Lower(m.senderEmail), Lower(term))
                  || Contains(Lower(m.receiverEmail), Lower(term)))
  {
    Seqs.FilterMembership(ms, m => Keep(m, term, All), m);
  }

  /** An empty search with filter `all` shows the whole log, unchanged. */
  lemma EmptySearchKeepsAll(ms: seq<Message>)
    ensures FilteredMessages(ms, "", All) == ms
  {
    forall i | 0 <= i < |ms| ensures Keep(ms[i], "", All) {
      assert Lower("") == "";
      ContainsEmpty(Lower(ms[i].content));
    }
    Seqs.FilterKeepsAll(ms, m => Keep(m, "", All));
  }

  /** Filter `staff` shows a search match iff its sender or receiver contains `vanguard`. */
  lemma StaffFilterIff(ms: seq<Message>, term: string, m: Message)
    requires m in ms && MatchesSearch(m, term)
    ensures m in FilteredMessages(ms, term, StaffOnly) <==>
      Contains(m.senderEmail, "vanguard") || Contains(m.receiverEmail, "vanguard")
  {
    Seqs.FilterMembership(ms, m => Keep(m, term, StaffOnly), m);
  }

  /** Filter `client` hides a search match only when BOTH parties contain `vanguard`
      (the source joins the two negated tests with `||`). */
  lemma ClientFilterIff(ms: seq<Message>, term: string, m: Message)
    requires m in ms && MatchesSearch(m, term)
    ensures m !in FilteredMessages(ms, term, ClientOnly) <==>
      Contains(m.senderEmail, "vanguard") && Contains(m.receiverEmail, "vanguard")
  {
    Seqs.FilterMembership(ms, m => Keep(m, term, ClientOnly), m);
  }

  /** A message the search rejects is hidden under every filter, and every
      filter shows a subsequence of what filter `all` shows. */
  lemma SearchRejectsUnderEveryFilter(ms: seq<Message>, term: string, f: LogFilter, m: Message)
    ensures !MatchesSearch(m, term) ==> m !in FilteredMessages(ms, term, f)
    ensures Seqs.IsSubsequence(FilteredMessages(ms, term, f), FilteredMessages(ms, term, All))
  {
    Seqs.FilterMembership(ms, m => Keep(m, term, f), m);
    Seqs.FilterMonotone(ms, m => Keep(m, term, f), m => Keep(m, term, All));
  }

  /** The party name printed next to a badge: `email.split('@')[0]`. */
  function PartyName(email: string): (r: string)
    ensures r <= email && '@' !in r
    ensures '@' in email ==> email == r + "@" + email[|r| + 1..]
    ensures '@' !in email ==> r == email
  {
    LocalPart(email)
  }

  /** What `GET /api/admin/messages` came back with. */
  datatype FetchReply = FetchOk(data: seq<Message>) | FetchNotOk | FetchThrown

  /** The page's state: the fetched log, the loading flag and the two controls. */
  class CommsLogPage {
    var messages: seq<Message>
    var loading: bool
    var searchTerm: string
    var filter: LogFilter
    var storage: Session.Storage

    constructor (st: Session.Storage)
      ensures messages == [] && loading && searchTerm == "" && filter == All && storage == st
    {
      messages, loading, searchTerm, filter, storage := [], true, "", All, st;
    }

    /** `fetchMessages`: one fetch of the whole log (on mount and on every poll
        tick). `header` is the `Authorization` header sent. An ok reply replaces
        the log; a failure keeps the previous one; loading ends either way. */
    method FetchMessages(reply: FetchReply) returns (header: string)
      modifies this
      ensures header == Session.BearerHeader(storage)
      ensures messages == (if reply.FetchOk? then reply.data else old(messages))
      ensures !loading
      ensures searchTerm == old(searchTerm) && filter == old(filter) && storage == old(storage)
    {
      header := Session.BearerHeader(storage);
      if reply.FetchOk? {
        messages := reply.data;
      }
      loading := false;
    }

    /** The search box's `onChange`. */
    method SetSearchTerm(term: string)
      modifies this`searchTerm
      ensures searchTerm == term
    {
      searchTerm := term;
    }

    /** The messages the stream renders: none while loading, then the filtered log. */
    function Shown(): (r: seq<Message>)
      reads this
      ensures loading ==> r == []
      ensures !loading ==> r == FilteredMessages(messages, searchTerm, filter)
    {
      if loading then [] else FilteredMessages(messages, searchTerm, filter)
    }
  }

  /** A fresh page shows every fetched message as soon as the first fetch succeeds:
      the search starts empty and the filter starts at `all`, and nothing on the
      page ever changes the filter. */
  method FirstLoadShowsEverything(st: Session.Storage, log: seq<Message>) returns (shown: seq<Message>)
    ensures shown == log
  {
    var page := new CommsLogPage(st);
    var _ := page.FetchMessages(FetchOk(log));
    shown := page.Shown();
    EmptySearchKeepsAll(log);
  }
}
