/** The records passed between the layers (internal/entity/user.go). They
    carry no behaviour of their own. */
module Entity {

  /** A user as the caller submits it: no identifier and no demographics. */
  datatype User = User(name: string, surname: string, patronymic: string)

  /** The decoded payloads of the three attribute providers. */
  datatype UserAge = UserAge(age: int)
  datatype UserGender = UserGender(gender: string)
  datatype CountryEntry = CountryEntry(countryId: string)
  datatype UserNationality = UserNationality(country: seq<CountryEntry>)

  /** The merged result of one enrichment. */
  datatype UserExtraInfo = UserExtraInfo(age: int, gender: string, country: string)

  /** A user as the store reads and writes it. */
  datatype UserDto = UserDto(
    id: int,
    name: string,
    surname: string,
    patronymic: string,
    age: int,
    gender: string,
    nationality: string)

  datatype PaginatedUserData = PaginatedUserData(users: seq<UserDto>, page: int, pageSize: int)

  // Go's zero values of the structs the code returns on failure
  const ZeroExtraInfo := UserExtraInfo(0, "", "")
  const ZeroPaginatedUserData := PaginatedUserData([], 0, 0)
}
