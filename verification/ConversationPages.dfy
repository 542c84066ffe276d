/** Cursor pagination of a user's conversations (the memory store): text keys in descending order, a cursor of the last
    listed key, and the parse that reads it back. */
module ConversationPages {
  import opened Common

  // ---------------------------------------------------------------- the order of text

  predicate Before(a: string, b: string) {
    b != "" && (a == "" || a[0] < b[0] || (a[0] == b[0] && Before(a[1..], b[1..])))
  }

  lemma {:induction false} BeforeIsTotal(a: string, b: string)
    ensures a == b || Before(a, b) || Before(b, a)
  {
    if a != "" && b != "" && a[0] == b[0] {
      BeforeIsTotal(a[1..], b[1..]);
      assert a == [a[0]] + a[1..] && b == [b[0]] + b[1..];
    }
  }

  lemma {:induction false} BeforeIsTransitive(a: string, b: string, c: string)
    requires Before(a, b) && Before(b, c)
    ensures Before(a, c)
  {
    if a != "" && a[0] == b[0] && b[0] == c[0] { BeforeIsTransitive(a[1..], b[1..], c[1..]); }
  }

  lemma {:induction false} NotBeforeItself(a: string)
    ensures !Before(a, a)
  {
    if a != "" { NotBeforeItself(a[1..]); }
  }

  /** (created_at, conversation_id). */
  datatype Key = Key(createdAt: string, id: string)

  /** Tuple comparison: the first listed key is the greatest. */
  predicate Below(a: Key, b: Key) {
    Before(a.createdAt, b.createdAt) || (a.createdAt == b.createdAt && Before(a.id, b.id))
  }

  lemma BelowIsTotal(a: Key, b: Key)
    ensures a == b || Below(a, b) || Below(b, a)
  {
    BeforeIsTotal(a.createdAt, b.createdAt);
    BeforeIsTotal(a.id, b.id);
  }

  lemma BelowIsTransitive(a: Key, b: Key, c: Key)
    requires Below(a, b) && Below(b, c)
    ensures Below(a, c)
  {
    if Before(a.createdAt, b.createdAt) && Before(b.createdAt, c.createdAt) {
      BeforeIsTransitive(a.createdAt, b.createdAt, c.createdAt);
    }
    if Before(a.id, b.id) && Before(b.id, c.id) { BeforeIsTransitive(a.id, b.id, c.id); }
  }

  lemma NotBelowItself(a: Key)
    ensures !Below(a, a)
  {
    NotBeforeItself(a.createdAt);
    NotBeforeItself(a.id);
  }

  predicate Descending(keys: seq<Key>) { forall i, k :: 0 <= i < k < |keys| ==> Below(keys[k], keys[i]) }

  // ---------------------------------------------------------------- the cursor text

  function Print(key: Key): string { key.createdAt + "|" + key.id }

  /** Position of the last bar, if any: rsplit("|", 1). */
  function LastBar(s: string): (r: Option<nat>)
    ensures r.Some? ==> r.value < |s| && s[r.value] == '|' && forall i :: r.value < i < |s| ==> s[i] != '|'
    ensures r.None? ==> '|' !in s
  {
    if s == "" then None
    else if s[|s| - 1] == '|' then Some(|s| - 1)
    else LastBar(s[..|s| - 1])
  }

  /** Reading a timestamp and writing it in UTC ISO-8601; None when it is no timestamp. */
  type Normalize = string -> Option<string>

  /** _parse_cursor, with the time written back as the comparison needs it. A cursor that cannot be read counts as none. */
  function Parse(cursor: Option<string>, normalize: Normalize): Option<Key> {
    if cursor.None? || LastBar(cursor.value).None? then None
    else
      var bar := LastBar(cursor.value).value;
      var time := normalize(cursor.value[..bar]);
      if time.None? then None else Some(Key(time.value, cursor.value[bar + 1..]))
  }

  /** The cursor of a key reads back as that key exactly when the id holds no bar and the stored time is in normal form. */
  lemma CursorRoundTripIff(key: Key, normalize: Normalize)
    ensures Parse(Some(Print(key)), normalize) == Some(key) <==>
            '|' !in key.id && normalize(key.createdAt) == Some(key.createdAt)
  {
    var text := Print(key);
    var at := |key.createdAt|;
    assert text[at] == '|' && text[..at] == key.createdAt && text[at + 1..] == key.id;
    var bar := LastBar(text).value;
    assert bar >= at;
    if '|' !in key.id {
      assert forall i :: at < i < |text| ==> text[i] == key.id[i - at - 1];
      assert bar == at;
    } else {
      var i :| 0 <= i < |key.id| && key.id[i] == '|';
      assert text[at + 1 + i] == '|';
      assert |text[bar + 1..]| < |key.id|;
    }
  }

  // ---------------------------------------------------------------- pages

  function BelowCursor(keys: seq<Key>, cursor: Option<Key>): seq<Key> {
    if keys == [] then []
    else if cursor.None? || Below(keys[0], cursor.value) then [keys[0]] + BelowCursor(keys[1..], cursor)
    else BelowCursor(keys[1..], cursor)
  }

  datatype Page = Page(keys: seq<Key>, next: Option<string>)

  /** rows[:limit]; a negative limit counts from the end. */
  function Slice(rows: seq<Key>, limit: int): seq<Key> {
    if limit >= |rows| then rows
    else if limit >= 0 then rows[..limit]
    else if |rows| + limit >= 0 then rows[..|rows| + limit]
    else []
  }

  /** list_conversations on the keys of one user, sorted in descending order. */
  function PageOf(keys: seq<Key>, limit: int, cursor: Option<string>, normalize: Normalize): Page {
    var rows := BelowCursor(keys, Parse(cursor, normalize));
    var page := Slice(rows, limit);
    Page(page, if |rows| > limit && page != [] then Some(Print(page[|page| - 1])) else None)
  }

  /** The pages a client gets from a store that does not change. */
  type Pages = Option<string> -> Page

  function Listing(keys: seq<Key>, limit: int, normalize: Normalize): Pages {
    cursor => PageOf(keys, limit, cursor, normalize)
  }

  /** Follow next_cursor for at most so many pages; whether the end was reached. */
  function Follow(pages: Pages, cursor: Option<string>, n: nat): (seq<Key>, bool)
    decreases n
  {
    if n == 0 then ([], false)
    else
      var page := pages(cursor);
      if page.next.None? then (page.keys, true)
      else
        var more := Follow(pages, page.next, n - 1);
        (page.keys + more.0, more.1)
  }

  lemma {:induction false} BelowNone(keys: seq<Key>)
    ensures BelowCursor(keys, None) == keys
  {
    if keys != [] { BelowNone(keys[1..]); }
  }

  lemma {:induction false} AllBelow(keys: seq<Key>, cursor: Key)
    requires forall i :: 0 <= i < |keys| ==> Below(keys[i], cursor)
    ensures BelowCursor(keys, Some(cursor)) == keys
  {
    if keys != [] { AllBelow(keys[1..], cursor); }
  }

  /** The key falls behind the first n of these and before the others. */
  predicate Splits(keys: seq<Key>, n: nat, key: Key)
    requires n <= |keys|
  {
    (n > 0 ==> !Below(keys[n - 1], key)) && (n < |keys| ==> Below(keys[n], key))
  }

  lemma SplitsAll(keys: seq<Key>, n: nat, key: Key)
    requires Descending(keys) && n <= |keys| && Splits(keys, n, key)
    ensures forall i :: 0 <= i < |keys| ==> (Below(keys[i], key) <==> i >= n)
  {
    forall i | 0 <= i < |keys| ensures Below(keys[i], key) <==> i >= n {
      if i > n { BelowIsTransitive(keys[i], keys[n], key); }
      if i < n - 1 && Below(keys[i], key) { BelowIsTransitive(keys[n - 1], keys[i], key); }
    }
  }

  /** Of keys in descending order, those below a cursor are the last ones. */
  lemma {:induction false} BelowIsRest(keys: seq<Key>, n: nat, key: Key)
    requires Descending(keys) && n <= |keys| && Splits(keys, n, key)
    ensures BelowCursor(keys, Some(key)) == keys[n..]
  {
    SplitsAll(keys, n, key);
    if n == 0 {
      AllBelow(keys, key);
    } else {
      if n == 1 && |keys| > 1 { assert keys[1..][0] == keys[1]; }
      BelowIsRest(keys[1..], n - 1, key);
      assert keys[1..][n - 1..] == keys[n..];
    }
  }

  lemma {:induction false} SomeSplit(keys: seq<Key>, key: Key) returns (n: nat)
    requires Descending(keys)
    ensures n <= |keys| && Splits(keys, n, key)
  {
    if keys == [] || Below(keys[0], key) {
      n := 0;
    } else {
      n := SomeSplit(keys[1..], key);
      n := n + 1;
    }
  }

  /** What a cursor leads to, whatever it says: some of the last keys. */
  lemma CursorLeadsSomewhere(keys: seq<Key>, cursor: Option<string>, normalize: Normalize) returns (n: nat)
    requires Descending(keys)
    ensures n <= |keys| && BelowCursor(keys, Parse(cursor, normalize)) == keys[n..]
    ensures Parse(cursor, normalize).Some? ==> Splits(keys, n, Parse(cursor, normalize).value)
    ensures Parse(cursor, normalize).None? ==> n == 0
  {
    if Parse(cursor, normalize).None? {
      n := 0;
      BelowNone(keys);
    } else {
      n := SomeSplit(keys, Parse(cursor, normalize).value);
      BelowIsRest(keys, n, Parse(cursor, normalize).value);
    }
  }

  /** The cursor of the n-th key reads back as a key between it and the next one. */
  predicate Leads(keys: seq<Key>, n: nat, normalize: Normalize)
    requires 0 < n < |keys|
  {
    var key := Parse(CursorAt(keys, n), normalize);
    key.Some? && !Below(keys[n - 1], key.value) && Below(keys[n], key.value)
  }

  /** Whether the cursor handed out leads to the next key, by the number of keys listed so far. */
  type Leading = nat -> bool

  function CursorsOf(keys: seq<Key>, normalize: Normalize): Leading {
    (n: nat) => n == 0 || (n < |keys| && Leads(keys, n, normalize))
  }

  /** So do the cursors at the ends of all pages after the n-th key. */
  predicate AllLead(total: nat, limit: nat, leads: Leading, n: nat)
    requires limit >= 1 && n <= total
    decreases total - n
  {
    total - n > limit ==> leads(n + limit) && AllLead(total, limit, leads, n + limit)
  }

  lemma SliceOfRest(keys: seq<Key>, limit: nat, n: nat)
    requires limit >= 1 && n <= |keys|
    ensures Slice(keys[n..], limit) == PageAt(keys, limit, n).keys
  {
    if |keys| - n > limit { assert keys[n..][..limit] == keys[n..n + limit]; }
  }

  /** The page after the n-th key, and the cursor it hands on. */
  lemma PageFrom(keys: seq<Key>, limit: nat, normalize: Normalize, n: nat)
    requires Descending(keys) && limit >= 1 && n <= |keys| && (n == 0 || (n < |keys| && Leads(keys, n, normalize)))
    ensures PageOf(keys, limit, CursorAt(keys, n), normalize) == PageAt(keys, limit, n)
  {
    if n == 0 {
      BelowNone(keys);
    } else {
      BelowIsRest(keys, n, Parse(CursorAt(keys, n), normalize).value);
    }
    assert BelowCursor(keys, Parse(CursorAt(keys, n), normalize)) == keys[n..];
    SliceOfRest(keys, limit, n);
  }

  function PageAt(keys: seq<Key>, limit: nat, n: nat): Page
    requires n <= |keys|
  {
    if |keys| - n > limit then Page(keys[n..n + limit], CursorAt(keys, n + limit)) else Page(keys[n..], None)
  }

  function CursorAt(keys: seq<Key>, n: nat): Option<string>
    requires n <= |keys|
  {
    if n == 0 then None else Some(Print(keys[n - 1]))
  }

  /** How many pages it takes to list so many keys. */
  function PagesFor(left: nat, limit: nat): nat
    requires limit >= 1
    decreases left
  {
    if left <= limit then 1 else 1 + PagesFor(left - limit, limit)
  }

  function PageBound(total: nat, limit: nat): nat
    requires limit >= 1
  {
    QuotientIsNat(total, limit);
    total / limit + 1
  }

  lemma {:induction false} PagesForBound(left: nat, limit: nat)
    requires limit >= 1
    ensures PagesFor(left, limit) <= PageBound(left, limit)
    decreases left
  {
    QuotientIsNat(left, limit);
    if left > limit {
      OnePageLess(left, limit);
      PagesForBound(left - limit, limit);
    }
  }

  /** A cursor that leads to the next key gets the page after it. */
  ghost predicate Paged(pages: Pages, keys: seq<Key>, limit: nat, leads: Leading) {
    forall n: nat {:trigger leads(n)} :: n <= |keys| && leads(n) ==> pages(CursorAt(keys, n)) == PageAt(keys, limit, n)
  }

  /** Any other cursor gets a page that does not begin with the next key. */
  ghost predicate Strays(pages: Pages, keys: seq<Key>, leads: Leading) {
    forall n: nat {:trigger leads(n)} :: 0 < n < |keys| && !leads(n) ==>
      var page := pages(CursorAt(keys, n));
      if page.keys == [] then page.next.None? else page.keys[0] != keys[n]
  }

  /** From the n-th key on, following lists the rest and ends. */
  ghost predicate ExactFrom(pages: Pages, keys: seq<Key>, n: nat, count: nat)
    requires n <= |keys|
  {
    Follow(pages, CursorAt(keys, n), count) == (keys[n..], true)
  }

  lemma ExactStep(pages: Pages, keys: seq<Key>, limit: nat, n: nat, count: nat)
    requires n <= |keys| && count > 0 && pages(CursorAt(keys, n)) == PageAt(keys, limit, n)
    requires |keys| - n > limit ==> ExactFrom(pages, keys, n + limit, count - 1)
    ensures ExactFrom(pages, keys, n, count)
  {
    if |keys| - n > limit { assert keys[n..n + limit] + keys[n + limit..] == keys[n..]; }
  }

  lemma {:induction false} FollowFrom(pages: Pages, keys: seq<Key>, limit: nat, leads: Leading, n: nat, count: nat)
    requires Paged(pages, keys, limit, leads) && limit >= 1 && n <= |keys| && leads(n)
    requires AllLead(|keys|, limit, leads, n) && count >= PagesFor(|keys| - n, limit)
    ensures ExactFrom(pages, keys, n, count)
    decreases count
  {
    if |keys| - n > limit { FollowFrom(pages, keys, limit, leads, n + limit, count - 1); }
    ExactStep(pages, keys, limit, n, count);
  }

  lemma QuotientIsNat(a: nat, d: nat)
    requires d >= 1
    ensures a / d >= 0
  {
  }

  lemma OnePageLess(left: nat, limit: nat)
    requires limit >= 1 && left >= limit
    ensures left / limit == (left - limit) / limit + 1
  {
    var q, r := (left - limit) / limit, (left - limit) % limit;
    assert left == (q + 1) * limit + r;
    QuotientIsUnique(left, limit, q + 1, r);
  }

  lemma QuotientIsUnique(a: int, d: int, q: int, r: int)
    requires d >= 1 && a == q * d + r && 0 <= r < d
    ensures a / d == q
  {
    var p, s := a / d, a % d;
    assert a == p * d + s;
    assert (q - p) * d == s - r;
    if q > p { AtLeast(q - p, d); }
    if q < p { AtLeast(p - q, d); }
  }

  lemma AtLeast(k: int, d: int)
    requires k >= 1 && d >= 1
    ensures k * d >= d
  {
    assert k * d == (k - 1) * d + d;
  }

  lemma DescendingAreDistinct(keys: seq<Key>)
    requires Descending(keys)
    ensures forall i, k :: 0 <= i < k < |keys| ==> keys[i] != keys[k]
  {
    forall i, k | 0 <= i < k < |keys| ensures keys[i] != keys[k] { NotBelowItself(keys[i]); }
  }

  lemma ListingIsPaged(keys: seq<Key>, limit: nat, normalize: Normalize)
    requires Descending(keys) && limit >= 1
    ensures Paged(Listing(keys, limit, normalize), keys, limit, CursorsOf(keys, normalize))
  {
    forall n: nat | n <= |keys| && CursorsOf(keys, normalize)(n)
      ensures Listing(keys, limit, normalize)(CursorAt(keys, n)) == PageAt(keys, limit, n)
    {
      PageFrom(keys, limit, normalize, n);
    }
  }

  lemma StrayPage(keys: seq<Key>, limit: nat, normalize: Normalize, n: nat)
    requires Descending(keys) && limit >= 1 && 0 < n < |keys| && !Leads(keys, n, normalize)
    ensures var page := PageOf(keys, limit, CursorAt(keys, n), normalize);
            if page.keys == [] then page.next.None? else page.keys[0] != keys[n]
  {
    var j := CursorLeadsSomewhere(keys, CursorAt(keys, n), normalize);
    assert j != n;
    SliceOfRest(keys, limit, j);
    DescendingAreDistinct(keys);
    if j < |keys| { assert PageOf(keys, limit, CursorAt(keys, n), normalize).keys[0] == keys[j]; }
  }

  lemma ListingStrays(keys: seq<Key>, limit: nat, normalize: Normalize)
    requires Descending(keys) && limit >= 1
    ensures Strays(Listing(keys, limit, normalize), keys, CursorsOf(keys, normalize))
  {
    forall n: nat | 0 < n < |keys| && !CursorsOf(keys, normalize)(n)
      ensures var page := Listing(keys, limit, normalize)(CursorAt(keys, n));
              if page.keys == [] then page.next.None? else page.keys[0] != keys[n]
    {
      StrayPage(keys, limit, normalize, n);
    }
  }

  /** After an exact page the rest is exact too. */
  lemma RestIsExact(pages: Pages, keys: seq<Key>, limit: nat, n: nat, count: nat)
    requires limit >= 1 && |keys| - n > limit && pages(CursorAt(keys, n)) == PageAt(keys, limit, n)
    requires Follow(pages, CursorAt(keys, n), count) == (keys[n..], true)
    ensures count > 0 && Follow(pages, CursorAt(keys, n + limit), count - 1) == (keys[n + limit..], true)
  {
    var more := Follow(pages, CursorAt(keys, n + limit), count - 1);
    assert keys[n..n + limit] + more.0 == keys[n..] && more.1;
    assert keys[n..][limit..] == keys[n + limit..];
    assert (keys[n..n + limit] + more.0)[limit..] == more.0;
  }

  lemma NextLeads(pages: Pages, keys: seq<Key>, limit: nat, leads: Leading, n: nat, count: nat)
    requires Paged(pages, keys, limit, leads) && Strays(pages, keys, leads)
    requires limit >= 1 && |keys| - n > limit && leads(n) && ExactFrom(pages, keys, n, count)
    ensures leads(n + limit) && count > 0 && ExactFrom(pages, keys, n + limit, count - 1)
  {
    RestIsExact(pages, keys, limit, n, count);
    if !leads(n + limit) {
      assert false;
    }
  }

  lemma {:induction false} ExactOnlyIfAllLead(pages: Pages, keys: seq<Key>, limit: nat, leads: Leading, n: nat, count: nat)
    requires Paged(pages, keys, limit, leads) && Strays(pages, keys, leads)
    requires limit >= 1 && n <= |keys| && leads(n) && ExactFrom(pages, keys, n, count)
    ensures AllLead(|keys|, limit, leads, n)
    decreases |keys| - n
  {
    if |keys| - n > limit {
      NextLeads(pages, keys, limit, leads, n, count);
      ExactOnlyIfAllLead(pages, keys, limit, leads, n + limit, count - 1);
    }
  }

  ghost predicate NeverListed(pages: Pages, key: Key) { forall cursor :: key !in pages(cursor).keys }

  lemma {:induction false} NeverListedNotFound(pages: Pages, key: Key, cursor: Option<string>, count: nat)
    requires NeverListed(pages, key)
    ensures key !in Follow(pages, cursor, count).0
    decreases count
  {
    if count > 0 && pages(cursor).next.Some? { NeverListedNotFound(pages, key, pages(cursor).next, count - 1); }
  }

  /** With a page size below one no page has the last key. */
  lemma LastIsNotListed(keys: seq<Key>, limit: int, normalize: Normalize)
    requires Descending(keys) && limit <= 0 && keys != []
    ensures NeverListed(Listing(keys, limit, normalize), keys[|keys| - 1])
  {
    forall cursor ensures keys[|keys| - 1] !in Listing(keys, limit, normalize)(cursor).keys {
      var j := CursorLeadsSomewhere(keys, cursor, normalize);
      SliceMissesLast(keys, j, limit);
    }
  }

  lemma SliceMissesLast(keys: seq<Key>, j: nat, limit: int)
    requires Descending(keys) && limit <= 0 && j <= |keys| && keys != []
    ensures keys[|keys| - 1] !in Slice(keys[j..], limit)
  {
    DescendingAreDistinct(keys);
    var page := Slice(keys[j..], limit);
    assert forall i :: 0 <= i < |page| ==> j + i < |keys| - 1 && page[i] == keys[j + i];
  }

  /** Following next_cursor from none lists these keys and ends, in at most so many pages. */
  predicate ListsExactly(pages: Pages, keys: seq<Key>, count: nat) { Follow(pages, None, count) == (keys, true) }

  lemma ExactImplies(keys: seq<Key>, limit: int, normalize: Normalize, count: nat)
    requires Descending(keys) && keys != [] && ListsExactly(Listing(keys, limit, normalize), keys, count)
    ensures limit >= 1 && AllLead(|keys|, limit, CursorsOf(keys, normalize), 0)
  {
    assert keys[0..] == keys;
    if limit <= 0 {
      LastIsNotListed(keys, limit, normalize);
      NeverListedNotFound(Listing(keys, limit, normalize), keys[|keys| - 1], None, count);
      assert false;
    } else {
      ListingIsPaged(keys, limit, normalize);
      ListingStrays(keys, limit, normalize);
      ExactOnlyIfAllLead(Listing(keys, limit, normalize), keys, limit, CursorsOf(keys, normalize), 0, count);
    }
  }

  lemma LeadingLists(pages: Pages, keys: seq<Key>, limit: nat, leads: Leading)
    requires Paged(pages, keys, limit, leads) && limit >= 1 && leads(0) && AllLead(|keys|, limit, leads, 0)
    ensures ListsExactly(pages, keys, PageBound(|keys|, limit))
  {
    PagesForBound(|keys|, limit);
    FollowFrom(pages, keys, limit, leads, 0, PageBound(|keys|, limit));
    assert keys[0..] == keys;
  }

  lemma LeadingImplies(keys: seq<Key>, limit: nat, normalize: Normalize)
    requires Descending(keys) && limit >= 1 && AllLead(|keys|, limit, CursorsOf(keys, normalize), 0)
    ensures ListsExactly(Listing(keys, limit, normalize), keys, PageBound(|keys|, limit))
  {
    ListingIsPaged(keys, limit, normalize);
    LeadingLists(Listing(keys, limit, normalize), keys, limit, CursorsOf(keys, normalize));
  }

  lemma NothingToList(limit: int, normalize: Normalize)
    ensures ListsExactly(Listing([], limit, normalize), [], 1)
  {
  }

  /** On a fixed store, following next_cursor from none lists every conversation exactly once, in descending order, and ends
      if and only if there is nothing to list, or the page size is at least one and the cursor at the end of every page
      reads back as a key between the page's last row and the next. It then takes at most |keys| / limit + 1 pages. */
  lemma PagingIsExactIff(keys: seq<Key>, limit: int, normalize: Normalize)
    requires Descending(keys)
    ensures (exists count :: ListsExactly(Listing(keys, limit, normalize), keys, count))
            <==> keys == [] || (limit >= 1 && AllLead(|keys|, limit, CursorsOf(keys, normalize), 0))
    ensures limit >= 1 && AllLead(|keys|, limit, CursorsOf(keys, normalize), 0) ==>
              ListsExactly(Listing(keys, limit, normalize), keys, PageBound(|keys|, limit))
  {
    if keys == [] {
      NothingToList(limit, normalize);
    } else if exists count :: ListsExactly(Listing(keys, limit, normalize), keys, count) {
      var count :| ListsExactly(Listing(keys, limit, normalize), keys, count);
      ExactImplies(keys, limit, normalize, count);
    }
    if limit >= 1 && AllLead(|keys|, limit, CursorsOf(keys, normalize), 0) {
      LeadingImplies(keys, limit, normalize);
    }
  }

  predicate Readable(keys: seq<Key>, normalize: Normalize) {
    forall i :: 0 <= i < |keys| ==> '|' !in keys[i].id && normalize(keys[i].createdAt) == Some(keys[i].createdAt)
  }

  /** Ids without a bar and times in normal form are enough, whatever the page size. */
  lemma ReadableCursorsLead(keys: seq<Key>, limit: nat, normalize: Normalize)
    requires Descending(keys) && Readable(keys, normalize) && limit >= 1
    ensures AllLead(|keys|, limit, CursorsOf(keys, normalize), 0)
  {
    forall n | 0 < n < |keys| ensures CursorsOf(keys, normalize)(n) {
      CursorRoundTripIff(keys[n - 1], normalize);
      NotBelowItself(keys[n - 1]);
    }
    EachLeads(|keys|, limit, CursorsOf(keys, normalize), 0);
  }

  lemma {:induction false} EachLeads(total: nat, limit: nat, leads: Leading, n: nat)
    requires limit >= 1 && n <= total && forall i: nat :: 0 < i < total ==> leads(i)
    ensures AllLead(total, limit, leads, n)
    decreases total - n
  {
    if total - n > limit { EachLeads(total, limit, leads, n + limit); }
  }

  /** An id with a bar on a page's last row, whose text before the last bar is no timestamp, makes the cursor unreadable:
      the next page is the first page again, and following never ends. */
  lemma UnreadableCursorLoops(keys: seq<Key>, limit: nat, normalize: Normalize, n: nat)
    requires 1 <= limit < |keys| && Parse(Some(Print(keys[limit - 1])), normalize).None?
    ensures PageOf(keys, limit, Some(Print(keys[limit - 1])), normalize) == PageOf(keys, limit, None, normalize)
    ensures !Follow(Listing(keys, limit, normalize), None, n).1
  {
    BelowNone(keys);
    var cursor := Some(Print(keys[limit - 1]));
    assert PageOf(keys, limit, None, normalize).next == cursor;
    LoopNeverEnds(Listing(keys, limit, normalize), cursor, cursor, n);
    LoopNeverEnds(Listing(keys, limit, normalize), None, cursor, n);
  }

  lemma {:induction false} LoopNeverEnds(pages: Pages, start: Option<string>, cursor: Option<string>, n: nat)
    requires cursor.Some? && pages(start).next == cursor && pages(cursor).next == cursor
    ensures !Follow(pages, start, n).1
    decreases n
  {
    if n > 0 { LoopNeverEnds(pages, cursor, cursor, n - 1); }
  }

  function KeySet(keys: seq<Key>): set<Key> { set key | key in keys }

  lemma RestOfDescending(keys: seq<Key>)
    requires Descending(keys) && keys != []
    ensures Descending(keys[1..]) && KeySet(keys[1..]) == KeySet(keys) - {keys[0]}
    ensures forall key :: key in KeySet(keys) && key != keys[0] ==> Below(key, keys[0])
  {
    NotBelowItself(keys[0]);
    assert keys == [keys[0]] + keys[1..];
    assert forall key :: key in keys[1..] ==> Below(key, keys[0]);
  }

  /** Keys can be put in descending order in one way only. */
  lemma {:induction false} OneArrangement(a: seq<Key>, b: seq<Key>)
    requires Descending(a) && Descending(b) && KeySet(a) == KeySet(b)
    ensures a == b
  {
    if a == [] {
      assert forall i :: 0 <= i < |b| ==> b[i] in KeySet(b);
    } else {
      assert a[0] in KeySet(a);
      RestOfDescending(a);
      RestOfDescending(b);
      assert b[0] in KeySet(b);
      NeverBothBelow(a[0], b[0]);
      OneArrangement(a[1..], b[1..]);
      assert a == [a[0]] + a[1..] && b == [b[0]] + b[1..];
    }
  }

  lemma NeverBothBelow(a: Key, b: Key)
    ensures !(Below(a, b) && Below(b, a))
  {
    NotBelowItself(a);
    if Below(a, b) && Below(b, a) { BelowIsTransitive(a, b, a); }
  }

  // ---------------------------------------------------------------- the store

  datatype Conversation = Conversation(user: UserId, createdAt: string)

  class MemoryConversationStore {
    var conversations: map<string, Conversation>

    constructor ()
      ensures conversations == map[]
    {
      conversations := map[];
    }

    ghost function KeysOf(user: Option<UserId>): set<Key>
      reads this
    {
      set id | id in conversations && (user.None? || conversations[id].user == user.value) :: Key(conversations[id].createdAt, id)
    }

    /** The user's rows, sorted in descending order. */
    method SortedRows(user: Option<UserId>) returns (rows: seq<Key>)
      ensures Descending(rows) && KeySet(rows) == KeysOf(user)
    {
      rows := [];
      var rest := conversations.Keys;
      while rest != {}
        invariant rest <= conversations.Keys && Descending(rows)
        invariant forall key :: key in rows <==>
          key.id in conversations.Keys - rest && (user.None? || conversations[key.id].user == user.value)
          && key.createdAt == conversations[key.id].createdAt
        decreases |rest|
      {
        var id :| id in rest;
        rest := rest - {id};
        if user.None? || conversations[id].user == user.value { rows := Insert(rows, Key(conversations[id].createdAt, id)); }
      }
    }

    /** list_conversations. */
    method ListConversations(user: Option<UserId>, limit: int, cursor: Option<string>, normalize: Normalize)
      returns (page: Page)
      ensures forall sorted :: Descending(sorted) && KeySet(sorted) == KeysOf(user) ==>
                page == PageOf(sorted, limit, cursor, normalize)
    {
      var rows := SortedRows(user);
      ghost var all := rows;
      var parsed := Parse(cursor, normalize);
      rows := BelowCursor(rows, parsed);
      var keys := Slice(rows, limit);
      page := Page(keys, if |rows| > limit && keys != [] then Some(Print(keys[|keys| - 1])) else None);
      forall sorted | Descending(sorted) && KeySet(sorted) == KeysOf(user)
        ensures page == PageOf(sorted, limit, cursor, normalize)
      {
        OneArrangement(all, sorted);
      }
    }
  }

  /** Put a new key in its place among descending keys. */
  function Insert(keys: seq<Key>, key: Key): (r: seq<Key>)
    requires Descending(keys) && key !in keys
    ensures Descending(r) && forall k :: k in r <==> k == key || k in keys
  {
    if keys == [] then [key]
    else if Below(keys[0], key) then
      AboveAll(keys, key);
      [key] + keys
    else
      BelowIsTotal(keys[0], key);
      var rest := Insert(keys[1..], key);
      assert forall k :: k in rest ==> Below(k, keys[0]);
      assert keys == [keys[0]] + keys[1..];
      [keys[0]] + rest
  }

  lemma AboveAll(keys: seq<Key>, key: Key)
    requires Descending(keys) && keys != [] && Below(keys[0], key)
    ensures Descending([key] + keys)
  {
    forall i | 1 <= i < |keys| ensures Below(keys[i], key) { BelowIsTransitive(keys[i], keys[0], key); }
  }
}
