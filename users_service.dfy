/**
 * The user catalogue (`UsersService.getUsers`): the request URL and the
 * mapping of the remote API's records to `User`. The HTTP call is not modelled.
 */
module UsersService {
  import opened Models
  import opened Decimal

  const ApiUrl: string := "https://randomuser.me/api/"
  const ResultsParameter: string := "?results="
  const DefaultLimit: nat := 100

  datatype Login = Login(uuid: string)
  datatype Name = Name(first: string, last: string)
  datatype Location = Location(city: string, country: string)
  datatype Picture = Picture(thumbnail: string, medium: string, large: string)

  /** One entry of the API's `results` array. */
  datatype RandomUser = RandomUser(
    login: Login,
    name: Name,
    email: string,
    location: Location,
    phone: string,
    picture: Picture)

  datatype RandomUserResponse = RandomUserResponse(results: seq<RandomUser>)

  /** The URL `getUsers(limit)` requests. */
  function RequestUrl(limit: nat := DefaultLimit): (url: string)
    ensures |url| == |ApiUrl + ResultsParameter| + |ToDecimal(limit)|
    ensures url[..|ApiUrl + ResultsParameter|] == ApiUrl + ResultsParameter
    ensures var count := url[|ApiUrl + ResultsParameter|..];
      AllDigits(count) && ValueOf(count) == limit
  {
    ApiUrl + ResultsParameter + ToDecimal(limit)
  }

  /** Default call: `getUsers()` requests one hundred users. */
  lemma DefaultRequestUrl()
    ensures RequestUrl() == "https://randomuser.me/api/?results=100"
  {
    assert ToDecimal(100) == ToDecimal(10) + ['0'];
    assert ToDecimal(10) == ToDecimal(1) + ['0'];
  }

  /** One record's user: the name is the first name, one space and the last name. */
  function ToUser(r: RandomUser): (u: User)
    ensures u.id == r.login.uuid && u.email == r.email && u.phone == r.phone
    ensures u.city == r.location.city && u.country == r.location.country
    ensures u.picture == r.picture.thumbnail
    ensures |u.name| == |r.name.first| + 1 + |r.name.last|
    ensures u.name[..|r.name.first|] == r.name.first && u.name[|r.name.first|] == ' '
    ensures u.name[|r.name.first| + 1..] == r.name.last
  {
    User(
      id := r.login.uuid,
      name := r.name.first + " " + r.name.last,
      email := r.email,
      city := r.location.city,
      country := r.location.country,
      phone := r.phone,
      picture := r.picture.thumbnail)
  }

  /** `results.map(...)`: one user per record, in the same order. */
  function MapResults(results: seq<RandomUser>): (users: seq<User>)
    ensures |users| == |results|
    ensures forall i :: 0 <= i < |results| ==>
      && users[i].id == results[i].login.uuid
      && users[i].name == results[i].name.first + " " + results[i].name.last
      && users[i].email == results[i].email
      && users[i].city == results[i].location.city
      && users[i].country == results[i].location.country
      && users[i].phone == results[i].phone
      && users[i].picture == results[i].picture.thumbnail
  {
    if results == [] then [] else [ToUser(results[0])] + MapResults(results[1..])
  }

  /** The users `getUsers` delivers for a response. */
  function GetUsers(response: RandomUserResponse): (users: seq<User>)
    ensures |users| == |response.results|
    ensures forall i :: 0 <= i < |users| ==> users[i] == ToUser(response.results[i])
  {
    MapResults(response.results)
  }

  /** Mapping a concatenation maps each part: the order of the records is kept. */
  lemma {:induction false} MapResultsAppend(a: seq<RandomUser>, b: seq<RandomUser>)
    ensures MapResults(a + b) == MapResults(a) + MapResults(b)
  {
    if a == [] {
      assert a + b == b;
    } else {
      assert (a + b)[1..] == a[1..] + b;
      MapResultsAppend(a[1..], b);
    }
  }

  /** Only the thumbnail is kept: the medium and large pictures have no effect on the user. */
  lemma PictureSizesDropped(r: RandomUser, medium: string, large: string)
    ensures ToUser(r.(picture := Picture(r.picture.thumbnail, medium, large))) == ToUser(r)
  {
  }
}
