/** The staff dashboard's client directory: a sorted copy of the client list
    (unread messages first, then pet owners, then alphabetical by name or
    e-mail) and the fallbacks used when a client row is drawn. */
module ClientDirectory {
  import opened Wrappers
  import Text
  import Seqs

  datatype Pet = Pet(name: string, imageUrl: Option<string>)

  /** A `UserWithPets` record; optional fields are `Option`, an absent name is `""`. */
  datatype Client = Client(
    id: string,
    name: string,
    email: string,
    unreadMessagesCount: Option<int>,
    pets: Option<seq<Pet>>)

  /** `c.unread_messages_count || 0`. */
  function Unread(c: Client): int {
    c.unreadMessagesCount.GetOr(0)
  }

  /** `c.pets?.length || 0`. */
  function PetCount(c: Client): nat {
    |c.pets.GetOr([])|
  }

  predicate HasPets(c: Client) {
    PetCount(c) > 0
  }

  /** `c.name || c.email || ""`. */
  function SortKey(c: Client): string {
    if c.name != "" then c.name else c.email
  }

  /** `localeCompare`, taken as lexicographic order on characters: -1, 0 or 1. */
  function StrCompare(a: string, b: string): (r: int)
    ensures -1 <= r <= 1
    ensures r == 0 <==> a == b
  {
    if a == [] then (if b == [] then 0 else -1)
    else if b == [] then 1
    else if a[0] < b[0] then -1
    else if a[0] > b[0] then 1
    else StrCompare(a[1..], b[1..])
  }

  lemma {:induction false} StrCompareAntisymmetric(a: string, b: string)
    ensures StrCompare(b, a) == -StrCompare(a, b)
  {
    if a != [] && b != [] && a[0] == b[0] {
      StrCompareAntisymmetric(a[1..], b[1..]);
    }
  }

  lemma {:induction false} StrCompareTransitive(a: string, b: string, c: string)
    requires StrCompare(a, b) <= 0 && StrCompare(b, c) <= 0
    ensures StrCompare(a, c) <= 0
  {
    if a != [] && b != [] && c != [] && a[0] == b[0] == c[0] {
      StrCompareTransitive(a[1..], b[1..], c[1..]);
    }
  }

  /** The comparator passed to `sort`: negative when `a` goes first. */
  function Compare(a: Client, b: Client): (r: int)
    ensures Unread(a) != Unread(b) ==> (r < 0 <==> Unread(a) > Unread(b)) && r != 0
    ensures Unread(a) == Unread(b) && HasPets(a) != HasPets(b) ==> (r < 0 <==> HasPets(a)) && r != 0
    ensures Unread(a) == Unread(b) && HasPets(a) == HasPets(b) ==> r == StrCompare(SortKey(a), SortKey(b))
  {
    if Unread(b) != Unread(a) then Unread(b) - Unread(a)
    else if PetCount(a) > 0 && PetCount(b) == 0 then -1
    else if PetCount(a) == 0 && PetCount(b) > 0 then 1
    else StrCompare(SortKey(a), SortKey(b))
  }

  /** Pet count matters only as zero versus non-zero: two pet owners with the
      same unread count are ordered by their keys whatever their pet counts. */
  lemma {:induction false} PetCountIgnoredAmongOwners(a: Client, b: Client)
    requires Unread(a) == Unread(b) && PetCount(a) > 0 && PetCount(b) > 0
    ensures Compare(a, b) == StrCompare(SortKey(a), SortKey(b))
  {
  }

  /** `a` may stand before `b`. */
  predicate Le(a: Client, b: Client) {
    Compare(a, b) <= 0
  }

  lemma LeTotal(a: Client, b: Client)
    ensures Le(a, b) || Le(b, a)
  {
    StrCompareAntisymmetric(SortKey(a), SortKey(b));
  }

  /** Swapping the two clients negates the comparison. */
  lemma CompareAntisymmetric(a: Client, b: Client)
    ensures Compare(b, a) == -Compare(a, b)
  {
    StrCompareAntisymmetric(SortKey(a), SortKey(b));
  }

  lemma LeTransitive(a: Client, b: Client, c: Client)
    requires Le(a, b) && Le(b, c)
    ensures Le(a, c)
  {
    if Unread(a) == Unread(b) == Unread(c) && HasPets(a) == HasPets(b) == HasPets(c) {
      StrCompareTransitive(SortKey(a), SortKey(b), SortKey(c));
    }
  }

  ghost predicate Sorted(s: seq<Client>) {
    forall i, j :: 0 <= i < j < |s| ==> Le(s[i], s[j])
  }

  /** Put `x` in front of the first element that must come after it. */
  function Insert(x: Client, s: seq<Client>): (r: seq<Client>)
    ensures multiset(r) == multiset(s) + multiset{x}
    ensures |r| == |s| + 1
  {
    if s == [] then [x]
    else if Compare(s[0], x) > 0 then [x] + s
    else assert s == [s[0]] + s[1..]; [s[0]] + Insert(x, s[1..])
  }

  lemma {:induction false} InsertSorted(x: Client, s: seq<Client>)
    requires Sorted(s)
    ensures Sorted(Insert(x, s))
  {
    if s == [] {
    } else if Compare(s[0], x) > 0 {
      LeTotal(s[0], x);
      forall j | 0 <= j < |s| ensures Le(x, s[j]) {
        if j > 0 {
          LeTransitive(x, s[0], s[j]);
        }
      }
    } else {
      var tail := s[1..];
      InsertSorted(x, tail);
      var r := Insert(x, tail);
      forall j | 0 <= j < |r| ensures Le(s[0], r[j]) {
        assert r[j] in multiset(tail) + multiset{x} by {
          assert r[j] in multiset(r);
        }
        if r[j] != x {
          assert r[j] in tail;
        }
      }
    }
  }

  /** `[...clients].sort(compare)` on a copy, as a stable insertion sort
      (`Array.prototype.sort` is required to be stable). */
  function SortDirectory(clients: seq<Client>): (r: seq<Client>)
    ensures multiset(r) == multiset(clients)
    ensures |r| == |clients|
  {
    if clients == [] then []
    else
      var init := clients[..|clients| - 1];
      assert clients == init + [clients[|clients| - 1]];
      Insert(clients[|clients| - 1], SortDirectory(init))
  }

  lemma {:induction false} SortDirectorySorted(clients: seq<Client>)
    ensures Sorted(SortDirectory(clients))
  {
    if clients != [] {
      var init := clients[..|clients| - 1];
      SortDirectorySorted(init);
      InsertSorted(clients[|clients| - 1], SortDirectory(init));
    }
  }

  /** Down the sorted directory the unread count (missing read as 0) never rises. */
  lemma UnreadNonIncreasing(clients: seq<Client>)
    ensures var r := SortDirectory(clients);
      forall i, j :: 0 <= i < j < |r| ==> Unread(r[i]) >= Unread(r[j])
  {
    SortDirectorySorted(clients);
  }

  /** Among clients with the same unread count, every pet owner comes before every client without pets. */
  lemma PetOwnersFirst(clients: seq<Client>)
    ensures var r := SortDirectory(clients);
      forall i, j :: 0 <= i < j < |r| && Unread(r[i]) == Unread(r[j]) ==> (HasPets(r[j]) ==> HasPets(r[i]))
  {
    SortDirectorySorted(clients);
  }

  /** Within one group of equal unread count and equal pet ownership, the key
      `name || email` never decreases. */
  lemma KeyNonDecreasingInGroup(clients: seq<Client>)
    ensures var r := SortDirectory(clients);
      forall i, j :: 0 <= i < j < |r| && Unread(r[i]) == Unread(r[j]) && HasPets(r[i]) == HasPets(r[j]) ==>
        StrCompare(SortKey(r[i]), SortKey(r[j])) <= 0
  {
    SortDirectorySorted(clients);
  }

  /** A row drawn in gold: `client.unread_messages_count > 0` (a missing count is not). */
  predicate Highlighted(c: Client) {
    c.unreadMessagesCount.Some? && c.unreadMessagesCount.value > 0
  }

  /** Every gold row stands above every plain one. */
  lemma HighlightedFirst(clients: seq<Client>)
    ensures var r := SortDirectory(clients);
      forall i, j :: 0 <= i < j < |r| && Highlighted(r[j]) ==> Highlighted(r[i])
  {
    UnreadNonIncreasing(clients);
  }

  /** `a` and `b` tie under the comparator. */
  predicate SameRank(a: Client, b: Client) {
    Compare(a, b) == 0
  }

  /** A tie means equal unread count, equal pet ownership and equal key. */
  lemma SameRankMeaning(a: Client, b: Client)
    ensures SameRank(a, b) <==> Unread(a) == Unread(b) && HasPets(a) == HasPets(b) && SortKey(a) == SortKey(b)
  {
  }

  /** The clients that tie with `k`, as a filter predicate. */
  function RankClass(k: Client): Client -> bool {
    c => SameRank(c, k)
  }

  /** Ties with a common client tie with each other. */
  lemma SameRankShared(a: Client, b: Client, k: Client)
    requires SameRank(a, k) && SameRank(b, k)
    ensures SameRank(a, b)
  {
    SameRankMeaning(a, k);
    SameRankMeaning(b, k);
    SameRankMeaning(a, b);
  }

  /** When `x` must precede the head of a sorted directory, nothing in it ties with `x`'s rank. */
  lemma NoTieAfterFront(x: Client, s: seq<Client>, k: Client)
    requires Sorted(s) && s != [] && Compare(s[0], x) > 0 && SameRank(x, k)
    ensures forall j :: 0 <= j < |s| ==> !SameRank(s[j], k)
  {
    forall j | 0 <= j < |s| ensures !SameRank(s[j], k) {
      if SameRank(s[j], k) {
        SameRankShared(s[j], x, k);
        if j > 0 {
          assert Le(s[0], s[j]);
          LeTransitive(s[0], s[j], x);
        }
      }
    }
  }

  /** Inserting `x` appends it behind every element of its own rank and leaves
      the order of every rank class otherwise unchanged. */
  lemma {:induction false} InsertStable(x: Client, s: seq<Client>, k: Client)
    requires Sorted(s)
    ensures Seqs.Filter(Insert(x, s), RankClass(k))
         == Seqs.Filter(s, RankClass(k)) + (if SameRank(x, k) then [x] else [])
  {
    var p := RankClass(k);
    var t := if SameRank(x, k) then [x] else [];
    if s == [] {
      Seqs.FilterCons(x, [], p);
    } else if Compare(s[0], x) > 0 {
      assert Insert(x, s) == [x] + s;
      Seqs.FilterCons(x, s, p);
      if SameRank(x, k) {
        NoTieAfterFront(x, s, k);
        Seqs.FilterNone(s, p);
      }
    } else {
      var tail := s[1..];
      var h := if p(s[0]) then [s[0]] else [];
      assert Sorted(tail);
      calc {
        Seqs.Filter(Insert(x, s), p);
        { assert Insert(x, s) == [s[0]] + Insert(x, tail); }
        Seqs.Filter([s[0]] + Insert(x, tail), p);
        { Seqs.FilterCons(s[0], Insert(x, tail), p); }
        h + Seqs.Filter(Insert(x, tail), p);
        { InsertStable(x, tail, k); }
        h + (Seqs.Filter(tail, p) + t);
        { Seqs.ConcatAssociative(h, Seqs.Filter(tail, p), t); }
        (h + Seqs.Filter(tail, p)) + t;
        { Seqs.FilterCons(s[0], tail, p); assert [s[0]] + tail == s; }
        Seqs.Filter(s, p) + t;
      }
    }
  }

  /** The sort is stable: the clients of any one rank appear in the output in
      exactly the order they had in the input. */
  lemma {:induction false} SortDirectoryStable(clients: seq<Client>, k: Client)
    ensures Seqs.Filter(SortDirectory(clients), RankClass(k)) == Seqs.Filter(clients, RankClass(k))
  {
    if clients != [] {
      var p := RankClass(k);
      var init, last := clients[..|clients| - 1], clients[|clients| - 1];
      var t := if SameRank(last, k) then [last] else [];
      calc {
        Seqs.Filter(SortDirectory(clients), p);
        { SortDirectoryLast(clients); }
        Seqs.Filter(Insert(last, SortDirectory(init)), p);
        { SortDirectorySorted(init); InsertStable(last, SortDirectory(init), k); }
        Seqs.Filter(SortDirectory(init), p) + t;
        { SortDirectoryStable(init, k); }
        Seqs.Filter(init, p) + t;
        { Seqs.FilterCons(last, [], p); assert [last] + [] == [last]; }
        Seqs.Filter(init, p) + Seqs.Filter([last], p);
        { Seqs.FilterConcat(init, [last], p); assert init + [last] == clients; }
        Seqs.Filter(clients, p);
      }
    }
  }

  /** One step of the sort: the last client is inserted into the sorted rest. */
  lemma SortDirectoryLast(clients: seq<Client>)
    requires clients != []
    ensures SortDirectory(clients) == Insert(clients[|clients| - 1], SortDirectory(clients[..|clients| - 1]))
  {
  }

  /** The label in bold on a row: `client.name || client.email`. */
  function DisplayName(c: Client): (r: string)
    ensures c.name != "" ==> r == c.name
    ensures c.name == "" ==> r == c.email
  {
    if c.name != "" then c.name else c.email
  }

  /** Rows are alphabetical by the very label they display. */
  lemma {:induction false} DisplayedLabelIsSortKey(c: Client)
    ensures DisplayName(c) == SortKey(c)
  {
  }

  /** The avatar letter: `client.email[0].toUpperCase()`. The source indexes the
      first character without a check, so it relies on a non-empty e-mail. */
  function AvatarLetter(c: Client): (r: char)
    requires c.email != ""
    ensures r == Text.UpperChar(c.email[0])
    ensures !('a' <= r <= 'z')
  {
    Text.UpperChar(c.email[0])
  }

  /** `names.join(", ")`. */
  function JoinNames(pets: seq<Pet>): (r: string)
    ensures pets != [] ==> pets[0].name <= r
    ensures |pets| == 1 ==> r == pets[0].name
  {
    if pets == [] then ""
    else if |pets| == 1 then pets[0].name
    else pets[0].name + ", " + JoinNames(pets[1..])
  }

  /** The caption under the name: the pet names, or a fixed text when there are none. */
  function PetsCaption(c: Client): (r: string)
    ensures !HasPets(c) ==> r == "Pets: No pets registered"
    ensures HasPets(c) ==> r == "Pets: " + JoinNames(c.pets.value)
  {
    "Pets: " + (if HasPets(c) then JoinNames(c.pets.value) else "No pets registered")
  }
}
