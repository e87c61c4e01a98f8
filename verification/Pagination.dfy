/**
 * internal/infra/postgres/ledger_repository.go, ListByWallet: keyset pagination of a wallet's ledger with an opaque
 * cursor.
 */
module Pagination {
  import opened Prelude
  import opened Int64
  import opened MoneyDomain
  import opened Ordering
  import Ledger = LedgerDomain

  // ---- the cursor ----

  predicate IsBytes(s: string) {
    forall i :: 0 <= i < |s| ==> s[i] as int < 256
  }

  /** The formats a cursor is built from: RFC 3339 timestamps, UUIDs and unpadded URL-safe base64. */
  datatype Codec = Codec(inEra: Time -> bool, formatTime: Time -> string, parseTime: string -> Option<Time>,
                         isUUID: Id -> bool, formatID: Id -> string, parseID: string -> Option<Id>,
                         encode: string -> string, decode: string -> Option<string>)
  {
    /**
     * What is needed of the formats: each parses what it printed, for times whose year has four digits and
     * identifiers of 128 bits; a timestamp contains no '|'; encoding a non-empty string gives a non-empty string.
     */
    ghost predicate Lawful() {
      && (forall t: Time :: inEra(t) ==>
            parseTime(formatTime(t)) == Some(t) && '|' !in formatTime(t) && IsBytes(formatTime(t)))
      && (forall id: Id :: isUUID(id) ==> parseID(formatID(id)) == Some(id) && IsBytes(formatID(id)))
      && (forall s: string :: IsBytes(s) ==> decode(encode(s)) == Some(s) && (s != "" ==> encode(s) != ""))
    }
  }

  /** The two halves of `s` around the first `sep`, or `s` alone. */
  function Split(s: string, sep: char): seq<string> {
    if s == "" then [""]
    else if s[0] == sep then ["", s[1..]]
    else
      var rest := Split(s[1..], sep);
      [[s[0]] + rest[0]] + rest[1..]
  }

  lemma {:induction false} SplitJoined(a: string, sep: char, b: string)
    requires sep !in a
    ensures Split(a + [sep] + b, sep) == [a, b]
  {
    if a != "" {
      var s := a + [sep] + b;
      assert s[1..] == a[1..] + [sep] + b && [a[0]] + a[1..] == a;
      SplitJoined(a[1..], sep, b);
    } else {
      assert (a + [sep] + b)[1..] == b;
    }
  }

  lemma {:induction false} SplitAtFirst(s: string, sep: char, i: nat)
    requires i <= |s| && sep !in s[..i] && (i < |s| ==> s[i] == sep)
    ensures Split(s, sep) == if i < |s| then [s[..i], s[i + 1..]] else [s]
  {
    if i < |s| {
      assert s == s[..i] + [sep] + s[i + 1..];
      SplitJoined(s[..i], sep, s[i + 1..]);
    } else if s != "" {
      assert s[1..][..i - 1] == s[1..] && sep !in s[1..];
      SplitAtFirst(s[1..], sep, i - 1);
      assert s == [s[0]] + s[1..];
    }
  }

  method SplitOnce(s: string, sep: char) returns (parts: seq<string>)
    ensures parts == Split(s, sep)
  {
    for i := 0 to |s|
      invariant sep !in s[..i]
    {
      if s[i] == sep {
        SplitAtFirst(s, sep, i);
        return [s[..i], s[i + 1..]];
      }
    }
    assert s[..|s|] == s;
    SplitAtFirst(s, sep, |s|);
    return [s];
  }

  function EncodeCursor(codec: Codec, k: Key): string
    requires k.1 >= 0
  {
    codec.encode(codec.formatTime(k.0) + "|" + codec.formatID(k.1))
  }

  /** Any text that is not two well-formed halves around a '|' is refused. */
  function DecodeCursor(codec: Codec, s: string): Result<Key, Error> {
    match codec.decode(s)
    case None => Err(MalformedCursor)
    case Some(raw) =>
      var parts := Split(raw, '|');
      if |parts| != 2 then Err(MalformedCursor)
      else
        match (codec.parseTime(parts[0]), codec.parseID(parts[1]))
        case (Some(t), Some(id)) => Ok((t, id))
        case _ => Err(MalformedCursor)
  }

  method Decode(codec: Codec, s: string) returns (r: Result<Key, Error>)
    ensures r == DecodeCursor(codec, s)
  {
    var raw := codec.decode(s);
    if raw.None? {
      return Err(MalformedCursor);
    }
    var parts := SplitOnce(raw.value, '|');
    if |parts| != 2 {
      return Err(MalformedCursor);
    }
    var createdAt := codec.parseTime(parts[0]);
    if createdAt.None? {
      return Err(MalformedCursor);
    }
    var id := codec.parseID(parts[1]);
    if id.None? {
      return Err(MalformedCursor);
    }
    return Ok((createdAt.value, id.value));
  }

  /** Decoding inverts encoding, and no position encodes to the empty cursor, which means the start. */
  lemma CursorRoundTrip(codec: Codec, k: Key)
    requires codec.Lawful() && codec.inEra(k.0) && k.1 >= 0 && codec.isUUID(k.1)
    ensures DecodeCursor(codec, EncodeCursor(codec, k)) == Ok(k) && EncodeCursor(codec, k) != ""
  {
    var t: Time, i: Id := k.0, k.1;
    assert codec.parseTime(codec.formatTime(t)) == Some(t) && '|' !in codec.formatTime(t);
    assert codec.parseID(codec.formatID(i)) == Some(i);
    var time, id := codec.formatTime(t), codec.formatID(i);
    assert IsBytes(time + "|" + id);
    SplitJoined(time, '|', id);
    assert time + "|" + id == time + ['|'] + id && time + "|" + id != "";
  }

  /** A cursor is a position exactly when it decodes to a time and an identifier around its first '|'. */
  lemma DecodesExactly(codec: Codec, s: string, k: Key)
    ensures DecodeCursor(codec, s) == Ok(k)
            <==> codec.decode(s).Some? &&
                 exists i :: 0 <= i < |codec.decode(s).value| && IsPosition(codec, codec.decode(s).value, i, k)
    ensures DecodeCursor(codec, s).Err? ==> DecodeCursor(codec, s).error == MalformedCursor
  {
    if codec.decode(s).Some? {
      var raw := codec.decode(s).value;
      if '|' in raw {
        var i := FirstOf(raw, '|');
        SplitAtFirst(raw, '|', i);
        hide Split;
        assert forall j :: i < j < |raw| ==> raw[i] in raw[..j];
        assert DecodeCursor(codec, s) == Ok(k) ==> IsPosition(codec, raw, i, k);
      } else {
        assert raw[..|raw|] == raw;
        SplitAtFirst(raw, '|', |raw|);
      }
    }
  }

  /** The first '|' is at `i`, and what is around it parses as the position. */
  predicate IsPosition(codec: Codec, raw: string, i: nat, k: Key)
    requires i < |raw|
  {
    && '|' !in raw[..i] && raw[i] == '|'
    && codec.parseTime(raw[..i]) == Some(k.0) && codec.parseID(raw[i + 1..]) == Some(k.1)
  }

  lemma {:induction false} FirstOf(s: string, c: char) returns (i: nat)
    requires c in s
    ensures i < |s| && s[i] == c && c !in s[..i]
  {
    if s[0] == c {
      i := 0;
    } else {
      assert s == [s[0]] + s[1..];
      var j := FirstOf(s[1..], c);
      i := j + 1;
      assert s[..i] == [s[0]] + s[1..][..j];
    }
  }

  // ---- the query ----

  function KeyOf(e: Ledger.Entry): Key {
    (e.createdAt, e.id)
  }

  /** The rows of a wallet past a position, in the order of the table. */
  function Matching(ledger: seq<Ledger.Entry>, walletID: Id, after: Option<Key>): seq<Ledger.Entry> {
    if ledger == [] then []
    else
      var last := ledger[|ledger| - 1];
      Matching(ledger[..|ledger| - 1], walletID, after)
      + if last.walletID == walletID && Past(after, KeyOf(last)) then [last] else []
  }

  predicate Past(after: Option<Key>, k: Key) {
    after.None? || Before(after.value, k)
  }

  /** SELECT ... WHERE wallet_id AND (created_at, id) > cursor ORDER BY created_at, id LIMIT n. */
  function Query(ledger: seq<Ledger.Entry>, walletID: Id, after: Option<Key>, n: nat): seq<Ledger.Entry> {
    Take(SortBy(Matching(ledger, walletID, after), KeyOf), n)
  }

  /** A row holds one currency for its three amounts, and rehydration refuses nil identifiers. */
  function Rehydrate(e: Ledger.Entry): (r: Result<Ledger.Entry, Error>)
    ensures r.Err? <==> e.id == NIL || e.walletID == NIL || e.transactionID == NIL
    ensures match r
            case Err(error) => error == InvalidEntry
            case Ok(entry) => && entry == e.(before := entry.before, after := entry.after)
                              && entry.before.minorUnits == e.before.minorUnits
                              && entry.after.minorUnits == e.after.minorUnits
                              && entry.before.currency == entry.after.currency == e.money.currency
  {
    if e.id == NIL || e.walletID == NIL || e.transactionID == NIL then Err(InvalidEntry)
    else
      var currency := e.money.currency;
      Ok(e.(before := Money(e.before.minorUnits, currency), after := Money(e.after.minorUnits, currency)))
  }

  function RehydrateAll(rows: seq<Ledger.Entry>): Result<seq<Ledger.Entry>, Error> {
    if rows == [] then Ok([])
    else
      match RehydrateAll(rows[..|rows| - 1])
      case Err(e) => Err(e)
      case Ok(entries) =>
        match Rehydrate(rows[|rows| - 1])
        case Err(e) => Err(e)
        case Ok(entry) => Ok(entries + [entry])
  }

  type PageResult = Result<(seq<Ledger.Entry>, string), Error>

  const DEFAULT_LIMIT: int64 := 50

  function Effective(limit: int64): int64 {
    if limit <= 0 then DEFAULT_LIMIT else limit
  }

  function Position(codec: Codec, cursor: string): Result<Option<Key>, Error> {
    if cursor == "" then Ok(None)
    else
      match DecodeCursor(codec, cursor)
      case Err(e) => Err(e)
      case Ok(k) => Ok(Some(k))
  }

  /** One row more than the page is asked for, to know whether there is a next page; asking past MAX wraps. */
  function Page(codec: Codec, ledger: seq<Ledger.Entry>, walletID: Id, cursor: string, limit: int64): PageResult {
    var n := Effective(limit);
    match Position(codec, cursor)
    case Err(e) => Err(e)
    case Ok(after) =>
      if Wrap(n + 1) < 0 then Err(ScanFailed)
      else
        match RehydrateAll(Query(ledger, walletID, after, Wrap(n + 1)))
        case Err(e) => Err(e)
        case Ok(entries) =>
          if |entries| > n then Ok((entries[..n], EncodeCursor(codec, KeyOf(entries[n - 1])))) else Ok((entries, ""))
  }

  lemma {:induction false} RehydratePrefix(rows: seq<Ledger.Entry>, k: nat)
    requires k <= |rows| && RehydrateAll(rows[..k]).Err?
    ensures RehydrateAll(rows) == RehydrateAll(rows[..k])
    decreases |rows|
  {
    if k < |rows| {
      assert rows[..|rows| - 1][..k] == rows[..k];
      RehydratePrefix(rows[..|rows| - 1], k);
    } else {
      assert rows[..k] == rows;
    }
  }

  method ListByWallet(codec: Codec, ledger: seq<Ledger.Entry>, walletID: Id, cursor: string, limit: int64)
    returns (r: PageResult)
    ensures r == Page(codec, ledger, walletID, cursor, limit)
  {
    hide Query, DecodeCursor, Rehydrate, EncodeCursor, Split;
    var n := limit;
    if n <= 0 {
      n := 50;
    }
    var after: Option<Key> := None;
    if cursor != "" {
      var k := Decode(codec, cursor);
      if k.Err? {
        return Err(k.error);
      }
      after := Some(k.value);
    }
    var wanted := Wrap(n + 1);
    if wanted < 0 {
      return Err(ScanFailed);
    }
    var rows := Query(ledger, walletID, after, wanted);
    var entries := [];
    for i := 0 to |rows|
      invariant RehydrateAll(rows[..i]) == Ok(entries) && |entries| == i
    {
      assert rows[..i + 1][..i] == rows[..i];
      var entry := Rehydrate(rows[i]);
      if entry.Err? {
        RehydratePrefix(rows, i + 1);
        return Err(entry.error);
      }
      entries := entries + [entry.value];
    }
    assert rows[..|rows|] == rows;
    if |entries| > n {
      var last := entries[n - 1];
      return Ok((entries[..n], EncodeCursor(codec, KeyOf(last))));
    }
    return Ok((entries, ""));
  }

  // ---- what one page holds ----

  predicate Wanted(ledger: seq<Ledger.Entry>, walletID: Id, after: Option<Key>, e: Ledger.Entry) {
    e in ledger && e.walletID == walletID && Past(after, KeyOf(e))
  }

  /** What the table and the service guarantee of entries: identifiers are a primary key, rows read back unchanged. */
  ghost predicate Listable(codec: Codec, ledger: seq<Ledger.Entry>) {
    && (forall i, j :: 0 <= i < j < |ledger| ==> ledger[i].id != ledger[j].id)
    && (forall i :: 0 <= i < |ledger| ==>
          Rehydrate(ledger[i]) == Ok(ledger[i]) && codec.inEra(ledger[i].createdAt) && codec.isUUID(ledger[i].id))
  }

  lemma {:induction false} MatchingHas(ledger: seq<Ledger.Entry>, walletID: Id, after: Option<Key>, e: Ledger.Entry)
    ensures e in Matching(ledger, walletID, after) <==> Wanted(ledger, walletID, after, e)
  {
    if ledger != [] {
      var m := |ledger| - 1;
      assert ledger == ledger[..m] + [ledger[m]];
      MatchingHas(ledger[..m], walletID, after, e);
    }
  }

  lemma {:induction false} MatchingDistinct(ledger: seq<Ledger.Entry>, walletID: Id, after: Option<Key>)
    requires forall i, j :: 0 <= i < j < |ledger| ==> ledger[i].id != ledger[j].id
    ensures DistinctKeys(Matching(ledger, walletID, after), KeyOf)
  {
    if ledger != [] {
      var m := |ledger| - 1;
      var before := Matching(ledger[..m], walletID, after);
      MatchingDistinct(ledger[..m], walletID, after);
      forall i | 0 <= i < |before|
        ensures before[i].id != ledger[m].id
      {
        MatchingHas(ledger[..m], walletID, after, before[i]);
      }
    }
  }

  /** Rehydrating one more row appends its entry. */
  lemma RehydrateLast(rows: seq<Ledger.Entry>, entries: seq<Ledger.Entry>)
    requires rows != [] && RehydrateAll(rows[..|rows| - 1]) == Ok(entries) && Rehydrate(rows[|rows| - 1]).Ok?
    ensures RehydrateAll(rows) == Ok(entries + [Rehydrate(rows[|rows| - 1]).value])
  {
    hide Rehydrate;
  }

  lemma {:induction false} RowsReadBack(rows: seq<Ledger.Entry>)
    requires forall e :: e in rows ==> Rehydrate(e) == Ok(e)
    ensures RehydrateAll(rows) == Ok(rows)
  {
    hide Rehydrate;
    if rows != [] {
      var m := |rows| - 1;
      RowsReadBack(rows[..m]);
      RehydrateLast(rows, rows[..m]);
      hide RehydrateAll;
      assert rows[m] in rows;
      assert rows[..m] + [rows[m]] == rows;
    }
  }

  /** Oldest first, and by identifier among entries of one instant. */
  predicate Chronological(es: seq<Ledger.Entry>) {
    forall i, j :: 0 <= i < j < |es| ==>
                     es[i].createdAt < es[j].createdAt || (es[i].createdAt == es[j].createdAt && es[i].id < es[j].id)
  }

  /** Every wanted entry, in strictly ascending order. */
  function Listing(ledger: seq<Ledger.Entry>, walletID: Id, after: Option<Key>): seq<Ledger.Entry> {
    SortBy(Matching(ledger, walletID, after), KeyOf)
  }

  lemma ListingIsSorted(codec: Codec, ledger: seq<Ledger.Entry>, walletID: Id, after: Option<Key>)
    requires Listable(codec, ledger)
    ensures Ascending(Listing(ledger, walletID, after), KeyOf) && Chronological(Listing(ledger, walletID, after))
    ensures forall e :: e in Listing(ledger, walletID, after) <==> Wanted(ledger, walletID, after, e)
    ensures multiset(Listing(ledger, walletID, after)) == multiset(Matching(ledger, walletID, after))
  {
    hide SortBy, Matching, Wanted;
    MatchingDistinct(ledger, walletID, after);
    SortBySorts(Matching(ledger, walletID, after), KeyOf);
    forall e
      ensures e in Listing(ledger, walletID, after) <==> Wanted(ledger, walletID, after, e)
    {
      MatchingHas(ledger, walletID, after, e);
      SortHasSame(Matching(ledger, walletID, after), KeyOf, e);
    }
  }

  /** A page, of 50 entries unless told otherwise, starts the listing, and has a cursor exactly when that goes on. */
  lemma PageStartsListing(codec: Codec, ledger: seq<Ledger.Entry>, walletID: Id, cursor: string, limit: int64)
    requires codec.Lawful() && Listable(codec, ledger) && Position(codec, cursor).Ok? && limit < MAX
    ensures var all := Listing(ledger, walletID, Position(codec, cursor).value);
            var n := if limit <= 0 then 50 else limit;
            Page(codec, ledger, walletID, cursor, limit)
            == Ok(if |all| <= n then (all, "") else (all[..n], EncodeCursor(codec, KeyOf(all[n - 1]))))
  {
    hide Listing, Rehydrate, EncodeCursor, Position, SortBy, Matching;
    var after := Position(codec, cursor).value;
    var n := Effective(limit);
    var all := Listing(ledger, walletID, after);
    ListingIsSorted(codec, ledger, walletID, after);
    WrapNearby(n + 1);
    var rows := Query(ledger, walletID, after, n + 1);
    assert rows == Take(all, n + 1) by {
      QueryTakes(ledger, walletID, after, n + 1);
    }
    forall e | e in rows
      ensures Rehydrate(e) == Ok(e)
    {
      assert e in all;
      assert Wanted(ledger, walletID, after, e);
    }
    RowsReadBack(rows);
    hide Query;
    if |all| > n {
      assert rows[..n] == all[..n];
    }
  }

  /** A readable table gives a page for every cursor that decodes and every limit but the largest int64. */
  lemma PageFailsExactly(codec: Codec, ledger: seq<Ledger.Entry>, walletID: Id, cursor: string, limit: int64)
    requires codec.Lawful() && Listable(codec, ledger)
    ensures Page(codec, ledger, walletID, cursor, limit).Err? <==> Position(codec, cursor).Err? || limit == MAX
    ensures Page(codec, ledger, walletID, cursor, limit).Err? ==>
              Page(codec, ledger, walletID, cursor, limit).error
              == if Position(codec, cursor).Err? then MalformedCursor else ScanFailed
  {
    hide Listing, EncodeCursor, RehydrateAll, Query, Split;
    if Position(codec, cursor).Ok? && limit != MAX {
      PageStartsListing(codec, ledger, walletID, cursor, limit);
    }
  }

  lemma QueryTakes(ledger: seq<Ledger.Entry>, walletID: Id, after: Option<Key>, n: nat)
    ensures Query(ledger, walletID, after, n) == Take(Listing(ledger, walletID, after), n)
  {
  }

  lemma NextPosition(codec: Codec, k: Key)
    requires codec.Lawful() && codec.inEra(k.0) && k.1 >= 0 && codec.isUUID(k.1)
    ensures EncodeCursor(codec, k) != "" && Position(codec, EncodeCursor(codec, k)) == Ok(Some(k))
  {
    hide EncodeCursor, DecodeCursor;
    CursorRoundTrip(codec, k);
  }

  /** What is listed past the n-th entry is the rest of the listing. */
  lemma ListingContinues(codec: Codec, ledger: seq<Ledger.Entry>, walletID: Id, after: Option<Key>, n: nat)
    requires Listable(codec, ledger) && 0 < n < |Listing(ledger, walletID, after)|
    ensures var all := Listing(ledger, walletID, after);
            Listing(ledger, walletID, Some(KeyOf(all[n - 1]))) == all[n..]
  {
    hide Listing, SortBy, Matching;
    var all := Listing(ledger, walletID, after);
    var k := KeyOf(all[n - 1]);
    var rest := Listing(ledger, walletID, Some(k));
    ListingIsSorted(codec, ledger, walletID, after);
    ListingIsSorted(codec, ledger, walletID, Some(k));
    assert Wanted(ledger, walletID, after, all[n - 1]);
    forall e
      ensures e in rest <==> e in all[n..]
    {
      if e in all[n..] {
        assert e in all && Before(k, KeyOf(e));
      }
      if e in rest {
        assert Wanted(ledger, walletID, after, e);
        var i :| 0 <= i < |all| && all[i] == e;
        assert i >= n;
      }
    }
    AscendingIsUnique(rest, all[n..], KeyOf);
  }

  // ---- reading page by page ----

  /** One request of a reader: the table as it stands then, and the limit asked for. */
  datatype Visit = Visit(ledger: seq<Ledger.Entry>, limit: int64)

  type Reading = Result<(seq<seq<Ledger.Entry>>, string), Error>

  /** A reader follows the cursors until one is empty or the visits run out. */
  function Read(codec: Codec, walletID: Id, cursor: string, visits: seq<Visit>): Reading
    decreases |visits|
  {
    if visits == [] then Ok(([], cursor))
    else
      match Page(codec, visits[0].ledger, walletID, cursor, visits[0].limit)
      case Err(e) => Err(e)
      case Ok((entries, next)) =>
        if next == "" then Ok(([entries], ""))
        else
          match Read(codec, walletID, next, visits[1..])
          case Err(e) => Err(e)
          case Ok((pages, end)) => Ok(([entries] + pages, end))
  }

  function Flatten(pages: seq<seq<Ledger.Entry>>): seq<Ledger.Entry> {
    if pages == [] then [] else pages[0] + Flatten(pages[1..])
  }

  /** The ledger only grows between visits, every table is listable, and no limit is the largest int64. */
  ghost predicate Readable(codec: Codec, visits: seq<Visit>) {
    && (forall i :: 0 <= i < |visits| ==> Listable(codec, visits[i].ledger) && Effective(visits[i].limit) < MAX)
    && (forall i, j :: 0 <= i < j < |visits| ==> visits[i].ledger <= visits[j].ledger)
  }

  /** Some visit found the table holding the wanted entry. */
  ghost predicate Offered(visits: seq<Visit>, walletID: Id, after: Option<Key>, e: Ledger.Entry) {
    exists v :: 0 <= v < |visits| && Wanted(visits[v].ledger, walletID, after, e)
  }

  /** What a reader has collected from a position on. */
  ghost predicate Collected(walletID: Id, after: Option<Key>, visits: seq<Visit>, es: seq<Ledger.Entry>, end: string) {
    && Ascending(es, KeyOf)
    && (forall i :: 0 <= i < |es| ==> Offered(visits, walletID, after, es[i]))
    && (visits != [] && end == "" ==>
          forall e :: Wanted(visits[0].ledger, walletID, after, e) ==> e in es)
  }

  /** Entry by entry: a page is followed by what is collected past its last entry. */
  lemma CollectedEntry(codec: Codec, walletID: Id, after: Option<Key>, visits: seq<Visit>, n: nat,
                       rest: seq<Ledger.Entry>, end: string, i: nat)
    requires Readable(codec, visits) && visits != [] && 0 < n < |Listing(visits[0].ledger, walletID, after)|
    requires var k := KeyOf(Listing(visits[0].ledger, walletID, after)[n - 1]);
             Collected(walletID, Some(k), visits[1..], rest, end)
    requires i < n + |rest|
    ensures var all := Listing(visits[0].ledger, walletID, after);
            var es := all[..n] + rest;
            && Offered(visits, walletID, after, es[i])
            && (i >= n ==> Before(KeyOf(all[n - 1]), KeyOf(es[i])))
  {
    hide Listing, Listable, Offered, Past;
    var ledger := visits[0].ledger;
    var all := Listing(ledger, walletID, after);
    ListingIsSorted(codec, ledger, walletID, after);
    if i < n {
      assert all[i] in all;
      OfferedNow(visits, walletID, after, all[i]);
    } else {
      assert Wanted(ledger, walletID, after, all[n - 1]);
      OfferedLater(visits, walletID, after, KeyOf(all[n - 1]), rest[i - n]);
    }
  }

  lemma OfferedNow(visits: seq<Visit>, walletID: Id, after: Option<Key>, e: Ledger.Entry)
    requires visits != [] && Wanted(visits[0].ledger, walletID, after, e)
    ensures Offered(visits, walletID, after, e)
  {
  }

  lemma OfferedLater(visits: seq<Visit>, walletID: Id, after: Option<Key>, k: Key, e: Ledger.Entry)
    requires visits != [] && Offered(visits[1..], walletID, Some(k), e) && Past(after, k)
    ensures Offered(visits, walletID, after, e) && Before(k, KeyOf(e))
  {
    var v :| 0 <= v < |visits[1..]| && Wanted(visits[1..][v].ledger, walletID, Some(k), e);
    assert Wanted(visits[v + 1].ledger, walletID, after, e);
  }

  lemma NothingMissed(codec: Codec, walletID: Id, after: Option<Key>, visits: seq<Visit>, n: nat,
                      rest: seq<Ledger.Entry>, e: Ledger.Entry)
    requires Readable(codec, visits) && |visits| > 1 && 0 < n < |Listing(visits[0].ledger, walletID, after)|
    requires var k := KeyOf(Listing(visits[0].ledger, walletID, after)[n - 1]);
             Collected(walletID, Some(k), visits[1..], rest, "")
    requires Wanted(visits[0].ledger, walletID, after, e)
    ensures e in Listing(visits[0].ledger, walletID, after)[..n] + rest
  {
    hide Listing, Listable;
    var ledger := visits[0].ledger;
    var all := Listing(ledger, walletID, after);
    ListingIsSorted(codec, ledger, walletID, after);
    var i :| 0 <= i < |all| && all[i] == e;
    if i >= n {
      assert ledger <= visits[1].ledger;
      assert Wanted(visits[1..][0].ledger, walletID, Some(KeyOf(all[n - 1])), e);
    }
  }

  lemma CollectsOn(codec: Codec, walletID: Id, after: Option<Key>, visits: seq<Visit>, n: nat, rest: seq<Ledger.Entry>,
                   end: string)
    requires Readable(codec, visits) && visits != [] && 0 < n < |Listing(visits[0].ledger, walletID, after)|
    requires var k := KeyOf(Listing(visits[0].ledger, walletID, after)[n - 1]);
             Collected(walletID, Some(k), visits[1..], rest, end)
    requires |visits| == 1 ==> end != ""
    ensures Collected(walletID, after, visits, Listing(visits[0].ledger, walletID, after)[..n] + rest, end)
  {
    hide Listing, Listable, Wanted, Offered;
    var all := Listing(visits[0].ledger, walletID, after);
    ListingIsSorted(codec, visits[0].ledger, walletID, after);
    var es := all[..n] + rest;
    forall i | 0 <= i < |es|
      ensures Offered(visits, walletID, after, es[i])
      ensures i >= n ==> Before(KeyOf(all[n - 1]), KeyOf(es[i]))
    {
      CollectedEntry(codec, walletID, after, visits, n, rest, end, i);
    }
    if end == "" {
      forall e | Wanted(visits[0].ledger, walletID, after, e)
        ensures e in es
      {
        NothingMissed(codec, walletID, after, visits, n, rest, e);
      }
    }
  }

  /** A visit reads all that is left, or a page of it and then on from the page's last entry. */
  lemma ReadGoesOn(codec: Codec, walletID: Id, cursor: string, visits: seq<Visit>)
    requires codec.Lawful() && Readable(codec, visits) && visits != [] && Position(codec, cursor).Ok?
    ensures var all := Listing(visits[0].ledger, walletID, Position(codec, cursor).value);
            var n := Effective(visits[0].limit);
            if |all| <= n then Read(codec, walletID, cursor, visits) == Ok(([all], ""))
            else
              n > 0 &&
              var next := EncodeCursor(codec, KeyOf(all[n - 1]));
              && next != "" && Position(codec, next) == Ok(Some(KeyOf(all[n - 1])))
              && Read(codec, walletID, cursor, visits)
                 == match Read(codec, walletID, next, visits[1..])
                    case Err(e) => Err(e)
                    case Ok((pages, end)) => Ok(([all[..n]] + pages, end))
  {
    hide Listing, Position, EncodeCursor, Page, Listable, IsBytes;
    var after := Position(codec, cursor).value;
    var n := Effective(visits[0].limit);
    PageStartsListing(codec, visits[0].ledger, walletID, cursor, visits[0].limit);
    var all := Listing(visits[0].ledger, walletID, after);
    if |all| > n {
      OnLedger(codec, visits[0].ledger, walletID, after, n - 1);
      NextPosition(codec, KeyOf(all[n - 1]));
    }
  }

  lemma LaterIsReadable(codec: Codec, visits: seq<Visit>)
    requires Readable(codec, visits) && visits != []
    ensures Readable(codec, visits[1..]) && Listable(codec, visits[0].ledger)
  {
    hide Listable;
  }

  lemma {:induction false} ReadCollects(codec: Codec, walletID: Id, cursor: string, visits: seq<Visit>)
    requires codec.Lawful() && Readable(codec, visits) && Position(codec, cursor).Ok?
    ensures var r := Read(codec, walletID, cursor, visits);
            r.Ok? && Collected(walletID, Position(codec, cursor).value, visits, Flatten(r.value.0), r.value.1)
    decreases |visits|
  {
    hide Listing, Position, EncodeCursor, Wanted, Collected, Listable, Readable, Effective, Page, Codec.Lawful;
    var after := Position(codec, cursor).value;
    if visits == [] {
      NothingCollected(walletID, after, cursor);
    } else {
      ReadGoesOn(codec, walletID, cursor, visits);
      LaterIsReadable(codec, visits);
      var ledger, n := visits[0].ledger, Effective(visits[0].limit);
      var all := Listing(ledger, walletID, after);
      ListingIsSorted(codec, ledger, walletID, after);
      if |all| <= n {
        assert Flatten([all]) == all + Flatten([]) == all;
        LastPage(walletID, after, visits, all);
      } else {
        var next := EncodeCursor(codec, KeyOf(all[n - 1]));
        ReadCollects(codec, walletID, next, visits[1..]);
        var (pages, end) := Read(codec, walletID, next, visits[1..]).value;
        assert Flatten([all[..n]] + pages) == all[..n] + Flatten(pages);
        CollectsOn(codec, walletID, after, visits, n, Flatten(pages), end);
      }
    }
  }

  lemma NothingCollected(walletID: Id, after: Option<Key>, end: string)
    ensures Collected(walletID, after, [], [], end)
  {
  }

  lemma LastPage(walletID: Id, after: Option<Key>, visits: seq<Visit>, all: seq<Ledger.Entry>)
    requires visits != [] && Ascending(all, KeyOf)
    requires forall e :: e in all <==> Wanted(visits[0].ledger, walletID, after, e)
    ensures Collected(walletID, after, visits, all, "")
  {
    hide Wanted;
    forall i | 0 <= i < |all|
      ensures Offered(visits, walletID, after, all[i])
    {
      assert all[i] in all;
      OfferedNow(visits, walletID, after, all[i]);
    }
  }

  lemma OnLedger(codec: Codec, ledger: seq<Ledger.Entry>, walletID: Id, after: Option<Key>, i: nat)
    requires Listable(codec, ledger) && i < |Listing(ledger, walletID, after)|
    ensures var e := Listing(ledger, walletID, after)[i];
            e in ledger && codec.inEra(e.createdAt) && codec.isUUID(e.id)
  {
    hide Listing;
    ListingIsSorted(codec, ledger, walletID, after);
    assert Wanted(ledger, walletID, after, Listing(ledger, walletID, after)[i]);
  }

  /**
   * A reader that starts from the empty cursor and follows the cursors, with any limits and while the ledger grows
   * between its requests, sees no entry twice and none out of (created_at, id) order; when it comes to the end it has
   * seen every entry of the wallet that was there when it started.
   */
  lemma ReadingIsComplete(codec: Codec, walletID: Id, visits: seq<Visit>)
    requires codec.Lawful() && Readable(codec, visits)
    ensures var r := Read(codec, walletID, "", visits);
            r.Ok? &&
            var (pages, end) := r.value;
            var es := Flatten(pages);
            && Chronological(es)
            && (forall i :: 0 <= i < |es| ==> Offered(visits, walletID, None, es[i]))
            && (visits != [] && end == "" ==>
                  forall e :: e in visits[0].ledger && e.walletID == walletID ==> e in es)
  {
    hide Page, Flatten;
    ReadCollects(codec, walletID, "", visits);
    var (pages, end) := Read(codec, walletID, "", visits).value;
    var es := Flatten(pages);
    if visits != [] && end == "" {
      forall e | e in visits[0].ledger && e.walletID == walletID
        ensures e in es
      {
        assert Wanted(visits[0].ledger, walletID, None, e);
      }
    }
  }

  /** How many pages of `n` hold `count` entries: at least one, otherwise the count over n, rounded up. */
  function PagesFor(count: nat, n: nat): nat
    requires n > 0
  {
    if count == 0 then 1 else (count + n - 1) / n
  }

  /** On a ledger that stands still, the pages are the listing, in order. */
  lemma {:induction false} PagesAreListing(codec: Codec, ledger: seq<Ledger.Entry>, walletID: Id, cursor: string,
                                           visits: seq<Visit>)
    requires codec.Lawful() && Readable(codec, visits) && Position(codec, cursor).Ok?
    requires forall i :: 0 <= i < |visits| ==> visits[i].ledger == ledger
    requires |visits| >= 1 && |visits| >= |Listing(ledger, walletID, Position(codec, cursor).value)|
    ensures var r := Read(codec, walletID, cursor, visits);
            && r.Ok? && r.value.1 == ""
            && Flatten(r.value.0) == Listing(ledger, walletID, Position(codec, cursor).value)
    decreases |visits|
  {
    hide Listing, Position, EncodeCursor, Page, Listable, Readable, Effective, Codec.Lawful;
    var after, n := Position(codec, cursor).value, Effective(visits[0].limit);
    var all := Listing(ledger, walletID, after);
    ReadGoesOn(codec, walletID, cursor, visits);
    LaterIsReadable(codec, visits);
    if |all| <= n {
      assert Flatten([all]) == all + Flatten([]) == all;
    } else {
      var next := EncodeCursor(codec, KeyOf(all[n - 1]));
      ListingContinues(codec, ledger, walletID, after, n);
      PagesAreListing(codec, ledger, walletID, next, visits[1..]);
      var pages := Read(codec, walletID, next, visits[1..]).value.0;
      assert Flatten([all[..n]] + pages) == all[..n] + Flatten(pages) == all;
    }
  }

  lemma OneMore(x: nat, n: nat)
    requires n > 0
    ensures (x + n) / n == 1 + x / n && (x < n ==> x / n == 0)
  {
    assert x == (x / n) * n + x % n;
    assert (x / n + 1) * n == (x / n) * n + n;
    QuotientUnique(x + n, n, x / n + 1, x % n);
  }

  lemma OnePageLess(count: nat, n: nat)
    requires 0 < n < count
    ensures PagesFor(count, n) == 1 + PagesFor(count - n, n)
  {
    OneMore(count - 1, n);
  }

  /** With one limit throughout, max(1, ceil(count / limit)) requests are needed and suffice. */
  lemma {:induction false} PageCount(codec: Codec, ledger: seq<Ledger.Entry>, walletID: Id, cursor: string,
                                     limit: int64, visits: seq<Visit>)
    requires codec.Lawful() && Readable(codec, visits) && Position(codec, cursor).Ok?
    requires forall i :: 0 <= i < |visits| ==> visits[i] == Visit(ledger, limit)
    ensures var needed := PagesFor(|Listing(ledger, walletID, Position(codec, cursor).value)|, Effective(limit));
            var r := Read(codec, walletID, cursor, visits);
            && r.Ok?
            && |r.value.0| == (if |visits| < needed then |visits| else needed)
            && (visits != [] ==> (r.value.1 == "" <==> |visits| >= needed))
    decreases |visits|
  {
    hide Listing, Position, EncodeCursor, Page, Listable, PagesFor, Readable, Effective, Codec.Lawful;
    if visits == [] {
      LimitIsPositive(limit);
      AtLeastOnePage(|Listing(ledger, walletID, Position(codec, cursor).value)|, Effective(limit));
    } else {
      assert visits[0] == Visit(ledger, limit);
      ReadGoesOn(codec, walletID, cursor, visits);
      LaterIsReadable(codec, visits);
      LimitIsPositive(limit);
      var after, n := Position(codec, cursor).value, Effective(limit);
      var all := Listing(ledger, walletID, after);
      AtLeastOnePage(|all|, n);
      if |all| > n {
        var next := EncodeCursor(codec, KeyOf(all[n - 1]));
        ListingContinues(codec, ledger, walletID, after, n);
        OnePageLess(|all|, n);
        AtLeastOnePage(|all| - n, n);
        PageCount(codec, ledger, walletID, next, limit, visits[1..]);
      }
    }
  }

  lemma LimitIsPositive(limit: int64)
    ensures Effective(limit) > 0
  {
  }

  lemma AtLeastOnePage(count: nat, n: nat)
    requires n > 0
    ensures PagesFor(count, n) >= 1 && (count <= n ==> PagesFor(count, n) == 1)
  {
    if 0 < count <= n {
      OneMore(count - 1, n);
    }
  }
}
