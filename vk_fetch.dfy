/** The three VK API calls the collector depends on (internal/clients/vk_api.go:240-383).
    The HTTP round trip (makeVKRequest) is not modelled: each call's decoded response is
    given by an oracle, and only the mapping from response items to model values is kept. */
module VkFetch {
  import opened Wrappers
  import opened Models

  /** One item of a users.get or users.getFollowers response, with the fields the client asks for. */
  datatype UserItem = UserItem(
    id: int, firstName: string, lastName: string, screenName: string,
    sex: int, cityTitle: string, homeTown: string)

  /** One item of an extended users.getSubscriptions response. */
  datatype SubscriptionItem = SubscriptionItem(id: int, name: string, screenName: string, kind: string)

  /** What a request yields: the decoded response, or a failure of the HTTP call, a status other
      than 200, or a body that is not JSON. A VK error object is not a failure here: makeVKRequest
      tests for it with a type assertion that never holds for the response types its callers pass
      (line 99), so an error reply decodes as a response without items. */
  datatype Fetch<T> = Fetched(response: T) | RequestFailed

  /** The VK API as seen by the collector: one response per method and user id. */
  datatype VkApi = VkApi(
    usersGet: int -> Fetch<seq<UserItem>>,
    usersGetFollowers: int -> Fetch<seq<UserItem>>,
    usersGetSubscriptions: int -> Fetch<seq<SubscriptionItem>>)

  datatype ApiError = RequestError | EmptyResponse

  /** The user's city: the structured city title when VK gives one, else the free-text home town. */
  function ResolveCity(cityTitle: string, homeTown: string): (city: string)
    ensures city == cityTitle || city == homeTown
    ensures cityTitle != "" ==> city == cityTitle
    ensures city == "" <==> cityTitle == "" && homeTown == ""
  {
    if cityTitle == "" then homeTown else cityTitle
  }

  /** The stored name: first name, one space, last name. */
  function DisplayName(firstName: string, lastName: string): (name: string)
    ensures |name| == |firstName| + 1 + |lastName|
    ensures name[..|firstName|] == firstName && name[|firstName|] == ' '
    ensures name[|firstName| + 1..] == lastName
  {
    firstName + " " + lastName
  }

  /** The User built from one response item (the same mapping in GetUserFullData and GetFollowers). */
  function ToUser(item: UserItem): User {
    User(item.id, item.screenName, DisplayName(item.firstName, item.lastName), item.sex,
         ResolveCity(item.cityTitle, item.homeTown))
  }

  function ToSubscription(item: SubscriptionItem): Subscription {
    Subscription(item.id, item.name, item.screenName, item.kind)
  }

  /** GetUserFullData: the first item of the users.get response; an empty response is an error. */
  function GetUserFullData(api: VkApi, userID: int): (r: Result<User, ApiError>)
    ensures r.Failure? <==> api.usersGet(userID).RequestFailed? || api.usersGet(userID).response == []
    ensures r.Failure? && api.usersGet(userID).RequestFailed? ==> r.error == RequestError
    ensures r.Failure? && api.usersGet(userID).Fetched? ==> r.error == EmptyResponse
    ensures r.Success? ==> r.value == ToUser(api.usersGet(userID).response[0])
  {
    match api.usersGet(userID)
    case RequestFailed => Failure(RequestError)
    case Fetched(items) => if |items| == 0 then Failure(EmptyResponse) else Success(ToUser(items[0]))
  }

  /** The followers a successful users.getFollowers call yields, item by item. */
  function FollowersOf(api: VkApi, userID: int): Result<seq<User>, ApiError> {
    match api.usersGetFollowers(userID)
    case RequestFailed => Failure(RequestError)
    case Fetched(items) => Success(seq(|items|, i requires 0 <= i < |items| => ToUser(items[i])))
  }

  /** The subscriptions a successful users.getSubscriptions call yields, item by item. */
  function SubscriptionsOf(api: VkApi, userID: int): Result<seq<Subscription>, ApiError> {
    match api.usersGetSubscriptions(userID)
    case RequestFailed => Failure(RequestError)
    case Fetched(items) => Success(seq(|items|, i requires 0 <= i < |items| => ToSubscription(items[i])))
  }

  method GetFollowers(api: VkApi, userID: int) returns (r: Result<seq<User>, ApiError>)
    ensures r.Failure? <==> api.usersGetFollowers(userID).RequestFailed?
    ensures r.Success? ==> |r.value| == |api.usersGetFollowers(userID).response|
    ensures r.Success? ==> forall i | 0 <= i < |r.value| ::
      r.value[i] == ToUser(api.usersGetFollowers(userID).response[i])
    ensures r == FollowersOf(api, userID)
  {
    match api.usersGetFollowers(userID)
    case RequestFailed =>
      return Failure(RequestError);
    case Fetched(items) =>
      var followers := new User[|items|];
      for i := 0 to |items|
        invariant forall k | 0 <= k < i :: followers[k] == ToUser(items[k])
      {
        followers[i] := ToUser(items[i]);
      }
      assert followers[..] == FollowersOf(api, userID).value;
      return Success(followers[..]);
  }

  method GetSubscriptions(api: VkApi, userID: int) returns (r: Result<seq<Subscription>, ApiError>)
    ensures r.Failure? <==> api.usersGetSubscriptions(userID).RequestFailed?
    ensures r.Success? ==> |r.value| == |api.usersGetSubscriptions(userID).response|
    ensures r.Success? ==> forall i | 0 <= i < |r.value| ::
      r.value[i] == ToSubscription(api.usersGetSubscriptions(userID).response[i])
    ensures r == SubscriptionsOf(api, userID)
  {
    match api.usersGetSubscriptions(userID)
    case RequestFailed =>
      return Failure(RequestError);
    case Fetched(items) =>
      var subscriptions := new Subscription[|items|];
      for i := 0 to |items|
        invariant forall k | 0 <= k < i :: subscriptions[k] == ToSubscription(items[k])
      {
        subscriptions[i] := ToSubscription(items[i]);
      }
      assert subscriptions[..] == SubscriptionsOf(api, userID).value;
      return Success(subscriptions[..]);
  }
}
