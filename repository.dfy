/** The user store and the enrichment aggregator
    (internal/repository/users/user.go). The `users` table is a map from
    id to row plus the serial counter that assigns ids; the database
    engine, the three attribute providers and their failures are inputs. */
module Repository {
  import opened Base
  import opened Entity
  import opened Strconv

  // ---------------------------------------------------------------------
  // Enrichment: the three lookups and their merge

  const UrlAge := "https://api.agify.io/?name="
  const UrlGender := "https://api.genderize.io/?name="
  const UrlCountry := "https://api.nationalize.io/?name="

  /** Which decoded payload a lookup fills in. */
  datatype Target = AgeTarget | GenderTarget | CountryTarget

  function UrlFor(t: Target, name: string): string {
    match t
    case AgeTarget => UrlAge + name
    case GenderTarget => UrlGender + name
    case CountryTarget => UrlCountry + name
  }

  /** The `relations` map of GetExtraInfo: lookup URL to the payload it
      decodes into. The three prefixes have different lengths, so the keys
      never collide and the map always holds exactly one entry per target. */
  function Relations(name: string): (r: map<string, Target>)
    ensures |r| == 3
    ensures forall url :: url in r ==> url == UrlFor(r[url], name)
    ensures forall t :: UrlFor(t, name) in r && r[UrlFor(t, name)] == t
  {
    var a, g, c := UrlFor(AgeTarget, name), UrlFor(GenderTarget, name), UrlFor(CountryTarget, name);
    assert |a| != |g| && |a| != |c| && |g| != |c|;
    var r := map[a := AgeTarget, g := GenderTarget, c := CountryTarget];
    assert r.Keys == {a, g, c};
    r
  }

  /** The three attribute providers, as seen through `fetchURL`: the outcome
      of a GET of a URL followed by decoding its JSON body. */
  datatype Providers = Providers(
    age: string -> Result<UserAge>,
    gender: string -> Result<UserGender>,
    nationality: string -> Result<UserNationality>)

  function AgeOf(p: Providers, name: string): Result<UserAge> {
    p.age(UrlFor(AgeTarget, name))
  }

  function GenderOf(p: Providers, name: string): Result<UserGender> {
    p.gender(UrlFor(GenderTarget, name))
  }

  function NationalityOf(p: Providers, name: string): Result<UserNationality> {
    p.nationality(UrlFor(CountryTarget, name))
  }

  /** At least one of the three lookups for `name` fails. */
  predicate EnrichmentFails(p: Providers, name: string) {
    AgeOf(p, name).Err? || GenderOf(p, name).Err? || NationalityOf(p, name).Err?
  }

  /** The errors of the lookups for `name` that fail. */
  function FetchErrors(p: Providers, name: string): set<Error> {
    (if AgeOf(p, name).Err? then {AgeOf(p, name).error} else {})
    + (if GenderOf(p, name).Err? then {GenderOf(p, name).error} else {})
    + (if NationalityOf(p, name).Err? then {NationalityOf(p, name).error} else {})
  }

  /** The canonical country: the first candidate, or "" when there is none. */
  function FirstCountry(n: UserNationality): string {
    if |n.country| == 0 then "" else n.country[0].countryId
  }

  /** The merge of three successful lookups. */
  function Merge(a: UserAge, g: UserGender, n: UserNationality): UserExtraInfo {
    UserExtraInfo(a.age, g.gender, FirstCountry(n))
  }

  /** What an enrichment of `name` yields when no lookup fails. */
  function Enrichment(p: Providers, name: string): UserExtraInfo
    requires !EnrichmentFails(p, name)
  {
    Merge(AgeOf(p, name).value, GenderOf(p, name).value, NationalityOf(p, name).value)
  }

  /** Enrichment fails exactly when there is an error to report. */
  lemma FailsIffSomeError(p: Providers, name: string)
    ensures EnrichmentFails(p, name) <==> FetchErrors(p, name) != {}
  {
  }

  // ---------------------------------------------------------------------
  // Paging

  /** OFFSET of page `page` (numbered from 1) of size `pageSize`, as an
      unbounded integer. */
  function Offset(page: int, pageSize: int): int {
    (page - 1) * pageSize
  }

  /** The ids that `LIMIT limit OFFSET offset` keeps of the engine's order. */
  function Window(order: seq<int>, offset: int, limit: int): (w: seq<int>)
    requires offset >= 0 && limit >= 0
    ensures |w| <= limit
    ensures |w| == if offset >= |order| then 0 else if offset + limit <= |order| then limit else |order| - offset
    ensures forall j :: 0 <= j < |w| ==> offset + j < |order| && w[j] == order[offset + j]
  {
    if offset >= |order| then []
    else if offset + limit <= |order| then order[offset..offset + limit]
    else order[offset..]
  }

  lemma OffsetOfNextPage(page: int, pageSize: int)
    ensures Offset(page + 1, pageSize) == Offset(page, pageSize) + pageSize
  {
  }

  /** From page 1 on, the offset is non-negative. */
  lemma OffsetIsPageStart(page: int, pageSize: int)
    requires page >= 1 && pageSize >= 0
    ensures Offset(page, pageSize) >= 0
  {
  }

  /** Every position of the order lies inside the window of some page: the
      one returned here starts at or before it and ends after it. */
  lemma {:induction false} PageContaining(k: nat, pageSize: int) returns (page: int)
    requires pageSize >= 1
    ensures page >= 1 && Offset(page, pageSize) <= k < Offset(page, pageSize) + pageSize
    decreases k
  {
    if k < pageSize {
      page := 1;
    } else {
      var prev := PageContaining(k - pageSize, pageSize);
      OffsetOfNextPage(prev, pageSize);
      page := prev + 1;
    }
  }

  /** A later page starts where an earlier one has ended. */
  lemma LaterPageStartsAfter(p: int, q: int, pageSize: int)
    requires 1 <= p < q && pageSize >= 0
    ensures Offset(q, pageSize) >= Offset(p, pageSize) + pageSize
  {
  }

  // ---------------------------------------------------------------------
  // The `users` table

  /** A row of `users` without its id. */
  datatype Record = Record(
    name: string,
    surname: string,
    patronymic: string,
    age: int,
    gender: string,
    nationality: string)

  /** The six columns a write stores; the DTO's id is not one of them. */
  function RecordOf(u: UserDto): Record {
    Record(u.name, u.surname, u.patronymic, u.age, u.gender, u.nationality)
  }

  /** The DTO that `rows.Scan` fills from the row with id `id`. */
  function DtoOf(id: int, r: Record): UserDto {
    UserDto(id, r.name, r.surname, r.patronymic, r.age, r.gender, r.nationality)
  }

  /** `order` is the result of `ORDER BY <sorting>` over the table: every
      id of the table exactly once. How the sort column chooses it is not
      modelled. */
  ghost predicate IsOrdering(order: seq<int>, rows: map<int, Record>) {
    && (forall id :: id in order <==> id in rows)
    && (forall j, k :: 0 <= j < k < |order| ==> order[j] != order[k])
  }

  /** One DTO per id, in the order of `ids`. */
  function Dtos(rows: map<int, Record>, ids: seq<int>): (users: seq<UserDto>)
    requires forall id :: id in ids ==> id in rows
    ensures |users| == |ids|
    ensures forall j :: 0 <= j < |ids| ==> users[j] == DtoOf(ids[j], rows[ids[j]])
  {
    if ids == [] then [] else Dtos(rows, ids[..|ids| - 1]) + [DtoOf(ids[|ids| - 1], rows[ids[|ids| - 1]])]
  }

  lemma WindowInTable(order: seq<int>, rows: map<int, Record>, offset: int, limit: int)
    requires IsOrdering(order, rows) && offset >= 0 && limit >= 0
    ensures forall id :: id in Window(order, offset, limit) ==> id in rows
  {
  }

  /** No row is listed on two different pages. */
  lemma PagesDisjoint(rows: map<int, Record>, order: seq<int>, p: int, q: int, pageSize: int)
    requires IsOrdering(order, rows) && 1 <= p < q && pageSize >= 1
    ensures forall u :: u in Listing(rows, order, p, pageSize) ==> u !in Listing(rows, order, q, pageSize)
  {
    LaterPageStartsAfter(p, q, pageSize);
    OffsetIsPageStart(p, pageSize);
    OffsetIsPageStart(q, pageSize);
    var lp, lq := Listing(rows, order, p, pageSize), Listing(rows, order, q, pageSize);
    var op, oq := Offset(p, pageSize), Offset(q, pageSize);
    forall u | u in lp ensures u !in lq {
      var i :| 0 <= i < |lp| && lp[i] == u;
      assert u.id == order[op + i];
    }
  }

  /** The DTOs of `LIMIT limit OFFSET offset`, in query order. */
  ghost function PageRows(rows: map<int, Record>, order: seq<int>, offset: int, limit: int): seq<UserDto>
    requires IsOrdering(order, rows) && offset >= 0 && limit >= 0
  {
    WindowInTable(order, rows, offset, limit);
    Dtos(rows, Window(order, offset, limit))
  }

  /** Page `page` of the listing, at the unbounded offset. */
  ghost function Listing(rows: map<int, Record>, order: seq<int>, page: int, pageSize: int): seq<UserDto>
    requires IsOrdering(order, rows) && page >= 1 && pageSize >= 1
  {
    OffsetIsPageStart(page, pageSize);
    PageRows(rows, order, Offset(page, pageSize), pageSize)
  }

  /** The row at position k of the order is listed on every page whose
      window covers k, with all six stored fields. */
  lemma ListedOnItsPage(rows: map<int, Record>, order: seq<int>, k: int, page: int, pageSize: int)
    requires IsOrdering(order, rows) && 0 <= k < |order| && page >= 1 && pageSize >= 1
    requires Offset(page, pageSize) <= k < Offset(page, pageSize) + pageSize
    ensures order[k] in rows
    ensures DtoOf(order[k], rows[order[k]]) in Listing(rows, order, page, pageSize)
  {
    var o := Offset(page, pageSize);
    var l := Listing(rows, order, page, pageSize);
    assert l == Dtos(rows, Window(order, o, pageSize));
    assert l[k - o] == DtoOf(order[k], rows[order[k]]);
  }

  /** Round trip: a row stored under `id` is listed, with all six stored
      fields, on some page of every page size. */
  lemma SavedRowIsListed(rows: map<int, Record>, id: int, order: seq<int>, pageSize: int)
    requires IsOrdering(order, rows) && id in rows && pageSize >= 1
    ensures exists page :: page >= 1 && DtoOf(id, rows[id]) in Listing(rows, order, page, pageSize)
  {
    assert id in order;
    var k :| 0 <= k < |order| && order[k] == id;
    var page := PageContaining(k, pageSize);
    ListedOnItsPage(rows, order, k, page, pageSize);
  }

  /** The database's answers to one listing query, apart from the rows. */
  datatype QueryFaults = QueryFaults(
    query: Option<Error>,          // the query is refused (connection, a bad sort column, ...)
    scan: Option<ScanFault>,       // scanning one row fails
    iteration: Option<Error>)      // `rows.Err` reports a failure after the last row
  datatype ScanFault = ScanFault(row: nat, error: Error)

  const NegativeOffset := SqlError("OFFSET must not be negative")
  const NegativeLimit := SqlError("LIMIT must not be negative")

  // ---------------------------------------------------------------------
  // Finding: the offset is computed in 64-bit `int`

  const TwoTo64 := 0x1_0000_0000_0000_0000

  /** Two's complement wrap-around of Go's 64-bit `int`. */
  function WrapInt(x: int): (r: int)
    ensures InIntRange(r) && (x - r) % TwoTo64 == 0
    ensures InIntRange(x) ==> r == x
  {
    (x - MinInt) % TwoTo64 + MinInt
  }

  /** `(page-1)*pageSize` as line 39 computes it, each operation wrapping. */
  function OffsetAsWritten(page: int, pageSize: int): int {
    WrapInt(WrapInt(page - 1) * pageSize)
  }

  /** Where the product fits in `int`, line 39 computes the unbounded offset,
      so every lemma about `Listing` holds of what the store returns. */
  lemma OffsetAsWrittenAgrees(page: int, pageSize: int)
    requires 1 <= page <= MaxInt && InIntRange(Offset(page, pageSize))
    ensures OffsetAsWritten(page, pageSize) == Offset(page, pageSize)
  {
  }

  /** Page 4611686018427387905 of size 2 wraps to the most negative `int`,
      which the engine refuses as a negative OFFSET. */
  lemma OffsetWrapsNegative()
    ensures OffsetAsWritten(0x4000_0000_0000_0001, 2) == MinInt
  {
  }

  /** Page 4611686018427387905 of size 4 wraps to offset 0, the offset of
      page 1, so it lists the same rows as page 1; the unbounded offset
      lies past the end of any table that fits in `int`. */
  lemma OffsetWrapsToFirstPage(order: seq<int>)
    requires |order| <= MaxInt
    ensures InIntRange(0x4000_0000_0000_0001)
    ensures OffsetAsWritten(0x4000_0000_0000_0001, 4) == OffsetAsWritten(1, 4) == 0
    ensures Window(order, OffsetAsWritten(0x4000_0000_0000_0001, 4), 4) == Window(order, Offset(1, 4), 4)
    ensures Offset(0x4000_0000_0000_0001, 4) == TwoTo64
    ensures Window(order, Offset(0x4000_0000_0000_0001, 4), 4) == []
  {
  }

  // ---------------------------------------------------------------------

  /** A call into the repository, with its arguments. */
  datatype Call =
    | EnrichCall(name: string)
    | ListCall(page: int, pageSize: int, sorting: string)
    | SaveCall(dto: UserDto)
    | UpdateCall(id: int, dto: UserDto)
    | DeleteCall(id: int)

  class UserRepository {
    var rows: map<int, Record>
    var nextId: int              // the next value of the `id serial` sequence
    ghost var calls: seq<Call>   // every call made to this repository, in order

    ghost predicate Valid()
      reads this`rows, this`nextId
    {
      nextId >= 1 && forall id :: id in rows ==> 1 <= id < nextId
    }

    /** A repository over a connection to a table that already holds
        `initial`, with `serial` the next id the sequence will hand out. */
    constructor (initial: map<int, Record>, serial: int)
      requires serial >= 1 && forall id :: id in initial ==> 1 <= id < serial
      ensures Valid() && rows == initial && nextId == serial && calls == []
    {
      rows := initial;
      nextId := serial;
      calls := [];
    }

    /** SELECT * FROM users ORDER BY <sorting> LIMIT pageSize OFFSET (page-1)*pageSize.
        `order` is what the engine's ORDER BY yields. */
    method GetAll(page: int, pageSize: int, sorting: string, order: seq<int>, faults: QueryFaults)
      returns (users: seq<UserDto>, err: Option<Error>)
      requires InIntRange(page) && InIntRange(pageSize)
      requires IsOrdering(order, rows)
      modifies this`calls
      ensures calls == old(calls) + [ListCall(page, pageSize, sorting)]
      ensures err.Some? ==> users == []
      ensures faults.query.Some? ==> err == faults.query
      ensures faults.query.None? && OffsetAsWritten(page, pageSize) < 0 ==> err == Some(NegativeOffset)
      ensures faults.query.None? && OffsetAsWritten(page, pageSize) >= 0 && pageSize < 0 ==> err == Some(NegativeLimit)
      ensures faults.query.None? && OffsetAsWritten(page, pageSize) >= 0 && pageSize >= 0 ==>
        var w := Window(order, OffsetAsWritten(page, pageSize), pageSize);
        if faults.scan.Some? && faults.scan.value.row < |w| then err == Some(faults.scan.value.error)
        else if faults.iteration.Some? then err == faults.iteration
        else (err.None? && (forall id :: id in w ==> id in rows) && users == Dtos(rows, w))
    {
      calls := calls + [ListCall(page, pageSize, sorting)];
      if faults.query.Some? {
        return [], faults.query;
      }
      var offset := OffsetAsWritten(page, pageSize);
      if offset < 0 {
        return [], Some(NegativeOffset);
      }
      if pageSize < 0 {
        return [], Some(NegativeLimit);
      }
      var window := Window(order, offset, pageSize);
      WindowInTable(order, rows, offset, pageSize);
      users := [];
      var i := 0;
      while i < |window|
        invariant 0 <= i <= |window|
        invariant faults.scan.Some? ==> faults.scan.value.row >= i
        invariant |users| == i
        invariant forall j :: 0 <= j < i ==> users[j] == DtoOf(window[j], rows[window[j]])
      {
        if faults.scan.Some? && faults.scan.value.row == i {
          return [], Some(faults.scan.value.error);
        }
        users := users + [DtoOf(window[i], rows[window[i]])];
        i := i + 1;
      }
      if faults.iteration.Some? {
        return [], faults.iteration;
      }
      assert users == Dtos(rows, window);
      err := None;
    }

    /** Looks up age, gender and nationality of `name`, one lookup per
        relation. The goroutines run in an unspecified order, modelled by
        choosing the next relation nondeterministically; each failing
        lookup sends its error to a channel of capacity |relations|, and the
        first error received is reported. */
    method GetExtraInfo(name: string, p: Providers) returns (info: UserExtraInfo, err: Option<Error>)
      modifies this`calls
      ensures calls == old(calls) + [EnrichCall(name)]
      ensures err.Some? <==> EnrichmentFails(p, name)
      ensures err.Some? ==> err.value in FetchErrors(p, name) && info == ZeroExtraInfo
      ensures err.None? ==> info == Enrichment(p, name)
    {
      calls := calls + [EnrichCall(name)];
      var userAge := UserAge(0);
      var userGender := UserGender("");
      var userCountry := UserNationality([]);
      var relations := Relations(name);
      var errCh: seq<Error> := [];
      var pending := relations.Keys;
      while pending != {}
        invariant pending <= relations.Keys
        invariant |errCh| + |pending| <= |relations|
        invariant forall e :: e in errCh ==> e in FetchErrors(p, name)
        invariant UrlFor(AgeTarget, name) !in pending ==>
          if AgeOf(p, name).Err? then AgeOf(p, name).error in errCh else userAge == AgeOf(p, name).value
        invariant UrlFor(GenderTarget, name) !in pending ==>
          if GenderOf(p, name).Err? then GenderOf(p, name).error in errCh else userGender == GenderOf(p, name).value
        invariant UrlFor(CountryTarget, name) !in pending ==>
          if NationalityOf(p, name).Err? then NationalityOf(p, name).error in errCh
          else userCountry == NationalityOf(p, name).value
        decreases pending
      {
        var url :| url in pending;
        match relations[url] {
          case AgeTarget =>
          var r := p.age(url);
          if r.Err? {
            assert |errCh| < |relations|;  // the send does not block
            errCh := errCh + [r.error];
          } else {
            userAge := r.value;
          }
        case GenderTarget =>
          var r := p.gender(url);
          if r.Err? {
            assert |errCh| < |relations|;
            errCh := errCh + [r.error];
          } else {
            userGender := r.value;
          }
        case CountryTarget =>
          var r := p.nationality(url);
          if r.Err? {
            assert |errCh| < |relations|;
            errCh := errCh + [r.error];
          } else {
            userCountry := r.value;
          }
        }
        pending := pending - {url};
      }
      FailsIffSomeError(p, name);
      if |errCh| > 0 {
        assert errCh[0] in errCh;
        return ZeroExtraInfo, Some(errCh[0]);
      }
      info := Merge(userAge, userGender, userCountry);
      err := None;
    }

    /** INSERT INTO users (name, surname, patronymic, age, gender, nationality):
        one new row under the next serial id; the DTO's id is ignored. */
    method Save(user: UserDto, fault: Option<Error>) returns (err: Option<Error>)
      requires Valid()
      modifies this
      ensures Valid()
      ensures calls == old(calls) + [SaveCall(user)]
      ensures err == fault
      ensures fault.None? ==>
        (old(nextId) !in old(rows) && rows == old(rows)[old(nextId) := RecordOf(user)] && nextId == old(nextId) + 1)
      ensures fault.Some? ==> rows == old(rows) && nextId == old(nextId)
    {
      calls := calls + [SaveCall(user)];
      if fault.Some? {
        return fault;
      }
      rows := rows[nextId := RecordOf(user)];
      nextId := nextId + 1;
      err := None;
    }

    /** UPDATE users SET <six columns> WHERE id = id: overwrites the
        matching row, if any, and succeeds also when none matches. */
    method Update(id: int, user: UserDto, fault: Option<Error>) returns (err: Option<Error>)
      requires Valid()
      modifies this
      ensures Valid()
      ensures calls == old(calls) + [UpdateCall(id, user)]
      ensures err == fault && nextId == old(nextId)
      ensures fault.None? && id in old(rows) ==> rows == old(rows)[id := RecordOf(user)]
      ensures fault.Some? || id !in old(rows) ==> rows == old(rows)
    {
      calls := calls + [UpdateCall(id, user)];
      if fault.Some? {
        return fault;
      }
      if id in rows {
        rows := rows[id := RecordOf(user)];
      }
      err := None;
    }

    /** DELETE FROM users WHERE id = id: removes the matching row, if any,
        and succeeds also when none matches. */
    method Delete(id: int, fault: Option<Error>) returns (err: Option<Error>)
      requires Valid()
      modifies this
      ensures Valid()
      ensures calls == old(calls) + [DeleteCall(id)]
      ensures err == fault && nextId == old(nextId)
      ensures rows == if fault.None? then old(rows) - {id} else old(rows)
    {
      calls := calls + [DeleteCall(id)];
      if fault.Some? {
        return fault;
      }
      rows := rows - {id};
      err := None;
    }
  }
}
