/** The user orchestrator (internal/service/users/user.go): parses the
    request's strings, calls the enrichment and the store, and classifies
    every outcome as a status code and an optional error. */
module Service {
  import opened Base
  import opened Entity
  import opened Strconv
  import opened Repository

  const DefaultPage := 1
  const DefaultPageSize := 10

  /** The parsed value of `s` when it is a decimal integer above 0,
      otherwise `default`. */
  function PositiveOrDefault(s: string, default: int): (r: int)
    requires default >= 1
    ensures r >= 1 && (InIntRange(default) ==> InIntRange(r))
    ensures Atoi(s).Some? && Atoi(s).value > 0 ==> r == Atoi(s).value
    ensures !(Atoi(s).Some? && Atoi(s).value > 0) ==> r == default
  {
    if s != "" then
      match Atoi(s)
      case Some(n) => if n > 0 then n else default
      case None => default
    else default
  }

  /** The examples of the listing endpoint: absent, zero or negative values
      fall back to the defaults; page 3 of size 20 starts at row 40. */
  lemma ListingDefaults()
    ensures PositiveOrDefault("", DefaultPage) == 1 && PositiveOrDefault("", DefaultPageSize) == 10
    ensures PositiveOrDefault("0", DefaultPage) == 1 && PositiveOrDefault("-5", DefaultPageSize) == 10
    ensures PositiveOrDefault("3", DefaultPage) == 3 && PositiveOrDefault("20", DefaultPageSize) == 20
    ensures PositiveOrDefault("abc", DefaultPage) == 1
    ensures Offset(PositiveOrDefault("3", DefaultPage), PositiveOrDefault("20", DefaultPageSize)) == 40
  {
  }

  /** The request `?page=4611686018427387905&pageSize=2` is accepted as it
      is, and the offset the store computes for it is negative. */
  lemma ListingRequestWrapsNegative()
    ensures PositiveOrDefault(Itoa(0x4000_0000_0000_0001), DefaultPage) == 0x4000_0000_0000_0001
    ensures PositiveOrDefault("2", DefaultPageSize) == 2
    ensures OffsetAsWritten(PositiveOrDefault(Itoa(0x4000_0000_0000_0001), DefaultPage),
                            PositiveOrDefault("2", DefaultPageSize)) < 0
  {
    EveryPositiveIntAccepted(0x4000_0000_0000_0001, DefaultPage);
    OffsetWrapsNegative();
  }

  /** Every positive `int`, written canonically, is taken as it is. */
  lemma EveryPositiveIntAccepted(n: int, default: int)
    requires 1 <= n <= MaxInt && default >= 1
    ensures PositiveOrDefault(Itoa(n), default) == n
  {
    AtoiItoa(n);
  }

  /** The id check of Update and Delete. */
  datatype IdCheck = Accepted(id: int) | Rejected(status: int, err: Option<Error>)

  /** `strconv.Atoi(idStr)` followed by `err != nil || id < 1`: an id that
      does not parse or is below 1 is answered with 404, and the error
      returned is Atoi's, which is nil when the id parsed. */
  function CheckId(idStr: string): (r: IdCheck)
    ensures r.Accepted? <==> Atoi(idStr).Some? && Atoi(idStr).value >= 1
    ensures r.Accepted? ==> r.id == Atoi(idStr).value && InIntRange(r.id)
    ensures r.Rejected? ==> r.status == StatusNotFound
    ensures r.Rejected? ==> (r.err.None? <==> Atoi(idStr).Some?)
    ensures r.Rejected? && r.err.Some? ==> r.err.value == NumError("Atoi", idStr)
  {
    match Atoi(idStr)
    case None => Rejected(StatusNotFound, Some(NumError("Atoi", idStr)))
    case Some(id) => if id < 1 then Rejected(StatusNotFound, None) else Accepted(id)
  }

  lemma CheckIdExamples()
    ensures CheckId("abc") == Rejected(StatusNotFound, Some(NumError("Atoi", "abc")))
    ensures CheckId("-1") == Rejected(StatusNotFound, None)
    ensures CheckId("0") == Rejected(StatusNotFound, None)
    ensures CheckId("3") == Accepted(3)
  {
  }

  /** The DTO written to the store: names from the request, demographics
      from the enrichment, the id left at zero. */
  function BuildDto(user: User, info: UserExtraInfo): UserDto {
    UserDto(0, user.name, user.surname, user.patronymic, info.age, info.gender, info.country)
  }

  class UserService {
    const repo: UserRepository

    constructor (r: UserRepository)
      ensures repo == r
    {
      repo := r;
    }

    /** Lists one page of users. The repository interface takes a sort
        column that the service does not pass; here the column is an
        unconstrained parameter handed through as it is. */
    method GetAll(pageStr: string, pageSizeStr: string, sorting: string, order: seq<int>, faults: QueryFaults)
      returns (data: PaginatedUserData, err: Option<Error>)
      requires IsOrdering(order, repo.rows)
      modifies repo`calls
      ensures var page, pageSize := PositiveOrDefault(pageStr, DefaultPage), PositiveOrDefault(pageSizeStr, DefaultPageSize);
        var offset := OffsetAsWritten(page, pageSize);
        && repo.calls == old(repo.calls) + [ListCall(page, pageSize, sorting)]
        && (err.Some? <==>
              (|| faults.query.Some?
               || offset < 0
               || faults.iteration.Some?
               || (offset >= 0 && faults.scan.Some?
                   && faults.scan.value.row < |PageRows(repo.rows, order, offset, pageSize)|)))
        && (err.Some? ==> data == ZeroPaginatedUserData)
        && (err.None? ==> offset >= 0 && data.page >= 1 && data.pageSize >= 1
                          && data == PaginatedUserData(PageRows(repo.rows, order, offset, pageSize), page, pageSize))
        && (err.None? && InIntRange(Offset(page, pageSize)) ==>
              data.users == Listing(repo.rows, order, page, pageSize))
    {
      var page := DefaultPage;
      var pageSize := DefaultPageSize;
      if pageStr != "" {
        var pageInt := Atoi(pageStr);
        if pageInt.Some? && pageInt.value > 0 {
          page := pageInt.value;
        }
      }
      if pageSizeStr != "" {
        var pageSizeInt := Atoi(pageSizeStr);
        if pageSizeInt.Some? && pageSizeInt.value > 0 {
          pageSize := pageSizeInt.value;
        }
      }
      assert page == PositiveOrDefault(pageStr, DefaultPage);
      assert pageSize == PositiveOrDefault(pageSizeStr, DefaultPageSize);
      OffsetIsPageStart(page, pageSize);
      if InIntRange(Offset(page, pageSize)) {
        OffsetAsWrittenAgrees(page, pageSize);
      }
      var users, e := repo.GetAll(page, pageSize, sorting, order, faults);
      if e.Some? {
        return ZeroPaginatedUserData, e;
      }
      data := PaginatedUserData(users, page, pageSize);
      err := None;
    }

    /** Enriches the user by name and stores it: 500 when the enrichment
        or the store fails, otherwise (200, nil). */
    method Save(user: User, p: Providers, fault: Option<Error>) returns (status: int, err: Option<Error>)
      requires repo.Valid()
      modifies repo
      ensures repo.Valid()
      ensures EnrichmentFails(p, user.name) ==>
        && status == StatusInternalServerError && err.Some? && err.value in FetchErrors(p, user.name)
        && repo.calls == old(repo.calls) + [EnrichCall(user.name)]
        && repo.rows == old(repo.rows) && repo.nextId == old(repo.nextId)
      ensures !EnrichmentFails(p, user.name) ==>
        var info := Enrichment(p, user.name);
        var dto := UserDto(0, user.name, user.surname, user.patronymic, info.age, info.gender, info.country);
        && repo.calls == old(repo.calls) + [EnrichCall(user.name), SaveCall(dto)]
        && (fault.Some? ==> status == StatusInternalServerError && err == fault
                            && repo.rows == old(repo.rows) && repo.nextId == old(repo.nextId))
        && (fault.None? ==> status == StatusOK && err.None? && repo.nextId == old(repo.nextId) + 1
                            && repo.rows == old(repo.rows)[old(repo.nextId) := RecordOf(dto)])
    {
      var info, e := repo.GetExtraInfo(user.name, p);
      if e.Some? {
        return StatusInternalServerError, e;
      }
      var dto := BuildDto(user, info);
      e := repo.Save(dto, fault);
      if e.Some? {
        return StatusInternalServerError, e;
      }
      return StatusOK, None;
    }

    /** Checks the id, then enriches and overwrites the user's row: 404 for
        a rejected id with nothing called, 500 when the enrichment or the
        store fails, otherwise (200, nil), also when no row has that id. */
    method Update(idStr: string, user: User, p: Providers, fault: Option<Error>) returns (status: int, err: Option<Error>)
      requires repo.Valid()
      modifies repo
      ensures repo.Valid() && repo.nextId == old(repo.nextId)
      ensures CheckId(idStr).Rejected? ==>
        && status == StatusNotFound && err == CheckId(idStr).err
        && repo.calls == old(repo.calls) && repo.rows == old(repo.rows)
      ensures CheckId(idStr).Accepted? && EnrichmentFails(p, user.name) ==>
        && status == StatusInternalServerError && err.Some? && err.value in FetchErrors(p, user.name)
        && repo.calls == old(repo.calls) + [EnrichCall(user.name)] && repo.rows == old(repo.rows)
      ensures CheckId(idStr).Accepted? && !EnrichmentFails(p, user.name) ==>
        var id := CheckId(idStr).id;
        var info := Enrichment(p, user.name);
        var dto := UserDto(0, user.name, user.surname, user.patronymic, info.age, info.gender, info.country);
        && repo.calls == old(repo.calls) + [EnrichCall(user.name), UpdateCall(id, dto)]
        && (fault.Some? ==> status == StatusInternalServerError && err == fault && repo.rows == old(repo.rows))
        && (fault.None? ==> status == StatusOK && err.None?
                            && repo.rows == if id in old(repo.rows) then old(repo.rows)[id := RecordOf(dto)]
                                            else old(repo.rows))
    {
      var check := CheckId(idStr);
      if check.Rejected? {
        return check.status, check.err;
      }
      var id := check.id;
      var info, e := repo.GetExtraInfo(user.name, p);
      if e.Some? {
        return StatusInternalServerError, e;
      }
      var dto := BuildDto(user, info);
      e := repo.Update(id, dto, fault);
      if e.Some? {
        return StatusInternalServerError, e;
      }
      return StatusOK, None;
    }

    /** Checks the id, then deletes the user's row: 404 for a rejected id
        with nothing called, 500 when the store fails, otherwise (200, nil),
        also when no row has that id. */
    method Delete(idStr: string, fault: Option<Error>) returns (status: int, err: Option<Error>)
      requires repo.Valid()
      modifies repo
      ensures repo.Valid() && repo.nextId == old(repo.nextId)
      ensures CheckId(idStr).Rejected? ==>
        && status == StatusNotFound && err == CheckId(idStr).err
        && repo.calls == old(repo.calls) && repo.rows == old(repo.rows)
      ensures CheckId(idStr).Accepted? ==>
        var id := CheckId(idStr).id;
        && repo.calls == old(repo.calls) + [DeleteCall(id)]
        && (fault.Some? ==> status == StatusInternalServerError && err == fault && repo.rows == old(repo.rows))
        && (fault.None? ==> status == StatusOK && err.None? && repo.rows == old(repo.rows) - {id})
    {
      var check := CheckId(idStr);
      if check.Rejected? {
        return check.status, check.err;
      }
      var id := check.id;
      var e := repo.Delete(id, fault);
      if e.Some? {
        return StatusInternalServerError, e;
      }
      return StatusOK, None;
    }
  }
}
