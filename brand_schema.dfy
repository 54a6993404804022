/** `BrandSchema`: the brand block of the document configuration (avatar, name,
    handle) and what parsing a JSON value against it yields. The avatar's
    image schema and its default input lie outside this model and are
    parameters. */
module BrandValidation {
  import opened Wrappers
  import opened JsonValues

  const NAME_MAX_LENGTH: nat := 30
  const NAME_TOO_LONG_MESSAGE: string := "Name must not be longer than 30 characters."
  const DEFAULT_NAME: string := "Alexander Stoliarchuk"

  /** Why a value was refused. */
  datatype IssueKind =
    | ExpectedObject
    | Required
    | ExpectedString
    | TooBig(maximum: nat, message: string)
    | Nested(message: string)

  /** One refusal, located by the keys leading to the offending value. */
  datatype Issue = Issue(path: seq<string>, kind: IssueKind)

  /** A parsed brand. Keys the schema does not name are not kept. */
  datatype Brand = Brand(avatar: Json, name: string, handle: string)

  /** The image schema the avatar is parsed with, and the input its default
      starts from. */
  datatype ImageRules = ImageRules(parse: Json -> Result<Json, seq<Issue>>, defaultInput: Json)

  function Issues<T>(r: Result<T, seq<Issue>>): seq<Issue>
  {
    if r.Failure? then r.error else []
  }

  function PrefixPaths(key: string, issues: seq<Issue>): (r: seq<Issue>)
    ensures |r| == |issues|
    ensures forall i | 0 <= i < |r| :: r[i] == Issue([key] + issues[i].path, issues[i].kind)
  {
    seq(|issues|, i requires 0 <= i < |issues| => Issue([key] + issues[i].path, issues[i].kind))
  }

  /** `avatar: ImageSchema.default(DEFAULT_IMAGE_INPUT)`: an absent avatar is
      replaced by the default input, which then goes through the image schema
      like any other. */
  function ParseAvatar(value: Option<Json>, image: ImageRules): (r: Result<Json, seq<Issue>>)
    ensures r.Success? <==> image.parse(if value.None? then image.defaultInput else value.value).Success?
    ensures r.Failure? ==> forall k | 0 <= k < |r.error| :: r.error[k].path != [] && r.error[k].path[0] == "avatar"
    ensures r.Success? ==> r.value == image.parse(if value.None? then image.defaultInput else value.value).value
  {
    var input := if value.None? then image.defaultInput else value.value;
    match image.parse(input)
    case Success(v) => Success(v)
    case Failure(issues) => Failure(PrefixPaths("avatar", issues))
  }

  /** `name: z.string().max(30, …).default("Alexander Stoliarchuk")`. */
  function ParseName(value: Option<Json>): (r: Result<string, seq<Issue>>)
    ensures r.Success? ==> |r.value| <= NAME_MAX_LENGTH
    ensures r.Success? ==> (value.None? && r.value == DEFAULT_NAME) || value == Some(JString(r.value))
    ensures value.None? ==> r == Success(DEFAULT_NAME)
    ensures (value.Some? && value.value.JString? && |value.value.s| > NAME_MAX_LENGTH)
            ==> r == Failure([Issue(["name"], TooBig(NAME_MAX_LENGTH, NAME_TOO_LONG_MESSAGE))])
    ensures value.Some? && value.value.JString? && |value.value.s| <= NAME_MAX_LENGTH ==> r == Success(value.value.s)
    ensures value.Some? && !value.value.JString? ==> r == Failure([Issue(["name"], ExpectedString)])
  {
    var input := if value.None? then JString(DEFAULT_NAME) else value.value;
    if !input.JString? then Failure([Issue(["name"], ExpectedString)])
    else if |input.s| > NAME_MAX_LENGTH then Failure([Issue(["name"], TooBig(NAME_MAX_LENGTH, NAME_TOO_LONG_MESSAGE))])
    else Success(input.s)
  }

  /** `handle: z.string()`: required, and a string. */
  function ParseHandle(value: Option<Json>): (r: Result<string, seq<Issue>>)
    ensures r.Success? <==> value.Some? && value.value.JString?
    ensures r.Success? ==> value == Some(JString(r.value))
    ensures value.None? ==> r == Failure([Issue(["handle"], Required)])
  {
    match value
    case None => Failure([Issue(["handle"], Required)])
    case Some(JString(s)) => Success(s)
    case Some(_) => Failure([Issue(["handle"], ExpectedString)])
  }

  /** `BrandSchema.parse`: a non-object is refused outright; otherwise every
      key is checked and all their issues are reported together, in the order
      avatar, name, handle. */
  function ParseBrand(input: Json, image: ImageRules): (r: Result<Brand, seq<Issue>>)
    ensures !input.JObject? ==> r == Failure([Issue([], ExpectedObject)])
    ensures input.JObject? ==>
      (r.Success? <==> ParseAvatar(Field(input, "avatar"), image).Success?
                       && ParseName(Field(input, "name")).Success?
                       && ParseHandle(Field(input, "handle")).Success?)
    ensures r.Success? ==> |r.value.name| <= NAME_MAX_LENGTH
    ensures r.Success? ==> Field(input, "handle") == Some(JString(r.value.handle))
    ensures r.Success? ==>
      r.value == Brand(ParseAvatar(Field(input, "avatar"), image).value,
                       ParseName(Field(input, "name")).value,
                       ParseHandle(Field(input, "handle")).value)
    ensures r.Failure? && input.JObject? ==>
      r.error == Issues(ParseAvatar(Field(input, "avatar"), image))
                 + Issues(ParseName(Field(input, "name")))
                 + Issues(ParseHandle(Field(input, "handle")))
  {
    if !input.JObject? then Failure([Issue([], ExpectedObject)])
    else
      var avatar := ParseAvatar(Field(input, "avatar"), image);
      var name := ParseName(Field(input, "name"));
      var handle := ParseHandle(Field(input, "handle"));
      if avatar.Success? && name.Success? && handle.Success?
      then Success(Brand(avatar.value, name.value, handle.value))
      else Failure(Issues(avatar) + Issues(name) + Issues(handle))
  }

  /** A brand written back as JSON. */
  function BrandToJson(b: Brand): Json
  {
    JObject(map["avatar" := b.avatar, "name" := JString(b.name), "handle" := JString(b.handle)])
  }

  /** A name longer than 30 characters is refused with the schema's message,
      whatever the other keys hold. */
  lemma NameTooLongRejected(input: Json, image: ImageRules, name: string)
    requires Field(input, "name") == Some(JString(name)) && |name| > NAME_MAX_LENGTH
    ensures ParseBrand(input, image).Failure?
    ensures Issue(["name"], TooBig(NAME_MAX_LENGTH, NAME_TOO_LONG_MESSAGE)) in ParseBrand(input, image).error
  {
  }

  /** The handle is required: an object without one is refused, and the
      refusal names it. */
  lemma HandleRequired(input: Json, image: ImageRules)
    requires input.JObject? && "handle" !in input.members
    ensures ParseBrand(input, image).Failure?
    ensures Issue(["handle"], Required) in ParseBrand(input, image).error
  {
  }

  /** An object holding only a handle gets the default name and the avatar the
      image schema makes of its default input. */
  lemma DefaultsApply(handle: string, image: ImageRules)
    requires image.parse(image.defaultInput).Success?
    ensures ParseBrand(JObject(map["handle" := JString(handle)]), image)
            == Success(Brand(image.parse(image.defaultInput).value, DEFAULT_NAME, handle))
  {
  }

  /** Parsing a brand written back as JSON gives the same brand, provided its
      name is within the limit and the image schema keeps the avatar as it is. */
  lemma BrandRoundTrip(b: Brand, image: ImageRules)
    requires |b.name| <= NAME_MAX_LENGTH
    requires image.parse(b.avatar) == Success(b.avatar)
    ensures ParseBrand(BrandToJson(b), image) == Success(b)
  {
  }

  /** Keys other than avatar, name and handle make no difference. */
  lemma ExtraKeysIgnored(members: map<string, Json>, key: string, value: Json, image: ImageRules)
    requires key != "avatar" && key != "name" && key != "handle"
    ensures ParseBrand(JObject(members[key := value]), image) == ParseBrand(JObject(members), image)
  {
  }
}
