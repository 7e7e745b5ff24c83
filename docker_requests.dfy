/**
  Value types of the docker-over-ssh service: the image `Tag` and its canonical
  string, and the field rules that `Validate()` enforces on the login, build and
  tag requests before anything is sent to the remote host.
 */
module DockerRequests {
  import opened Wrappers
  import opened Text

  /** The remote host a request runs against (a url.Resource; only its URL matters here). */
  datatype Target = Target(url: string)

  /** An image reference: `[registry-or-username/]image[:version]`. */
  datatype Tag = Tag(registry: string, username: string, image: string, version: string)

  const EmptyTag: Tag := Tag("", "", "", "")

  /** The part before the `/`: the registry when set, otherwise the username. */
  function Namespace(t: Tag): string {
    if t.registry != "" then t.registry else t.username
  }

  /** Tag.String. */
  function TagString(t: Tag): string {
    (if Namespace(t) != "" then Namespace(t) + "/" else "")
    + t.image
    + (if t.version != "" then ":" + t.version else "")
  }

  /** The three parts a tag string is read back into. */
  datatype TagParts = TagParts(namespace: string, image: string, version: string)

  /** Reads `image[:version]` back: the version is whatever follows the last `:`. */
  function SplitImageVersion(rest: string): (string, string) {
    match LastIndexOf(rest, ':')
    case Some(j) => (rest[..j], rest[j + 1..])
    case None => (rest, "")
  }

  /**
    Reads a tag string back: the namespace is everything before the last `/`,
    the version everything after the last `:` that follows it.
   */
  function SplitTagString(s: string): TagParts {
    var (namespace, rest) :=
      match LastIndexOf(s, '/')
      case Some(k) => (s[..k], s[k + 1..])
      case None => ("", s);
    var (image, version) := SplitImageVersion(rest);
    TagParts(namespace, image, version)
  }

  /** An image name or version as registries write them: no `/` and no `:`. */
  predicate PlainSegment(w: string) {
    '/' !in w && ':' !in w
  }

  lemma SplitImageVersionInverts(image: string, version: string)
    requires PlainSegment(image) && PlainSegment(version)
    ensures SplitImageVersion(image + (if version != "" then ":" + version else "")) == (image, version)
  {
    if version != "" {
      var rest := image + [':'] + version;
      assert image + (":" + version) == rest;
      LastIndexOfSeparator(image, ':', version);
      assert rest[..|image|] == image;
      assert rest[|image| + 1..] == version;
    } else {
      assert image + "" == image;
      LastIndexOfAbsent(image, ':');
    }
  }

  lemma SplitTagStringAtSlash(namespace: string, rest: string)
    requires '/' !in rest
    ensures SplitTagString(namespace + "/" + rest) == SplitTagString(rest).(namespace := namespace)
  {
    var s := namespace + ['/'] + rest;
    assert namespace + "/" + rest == s;
    LastIndexOfSeparator(namespace, '/', rest);
    assert s[..|namespace|] == namespace;
    assert s[|namespace| + 1..] == rest;
  }

  /**
    When the image and the version contain no `/` or `:`, Tag.String loses
    nothing: its namespace, image and version can be read back, so "abc",
    "abc:latest" and "reg.org/abc:latest" each name one tag.
   */
  lemma TagStringSplits(t: Tag)
    requires PlainSegment(t.image) && PlainSegment(t.version)
    ensures SplitTagString(TagString(t)) == TagParts(Namespace(t), t.image, t.version)
  {
    var rest := t.image + (if t.version != "" then ":" + t.version else "");
    TagStringJoin(t);
    ImageVersionSplits(t.image, t.version);
    if Namespace(t) != "" {
      NamespaceSplits(Namespace(t), rest, t.image, t.version);
    }
  }

  /** Tag.String as its namespace part followed by `image[:version]`. */
  lemma TagStringJoin(t: Tag)
    ensures Namespace(t) != "" ==>
              TagString(t) == Namespace(t) + "/" + (t.image + (if t.version != "" then ":" + t.version else ""))
    ensures Namespace(t) == "" ==>
              TagString(t) == t.image + (if t.version != "" then ":" + t.version else "")
  {
  }

  /** A namespace and a `/` in front of a slash-free rest are read back as that namespace. */
  lemma NamespaceSplits(namespace: string, rest: string, image: string, version: string)
    requires SplitTagString(rest) == TagParts("", image, version)
    requires '/' !in rest
    ensures SplitTagString(namespace + "/" + rest) == TagParts(namespace, image, version)
  {
    SplitTagStringAtSlash(namespace, rest);
  }

  /** `image[:version]` on its own reads back with no namespace. */
  lemma ImageVersionSplits(image: string, version: string)
    requires PlainSegment(image) && PlainSegment(version)
    ensures SplitTagString(image + (if version != "" then ":" + version else "")) == TagParts("", image, version)
    ensures '/' !in image + (if version != "" then ":" + version else "")
  {
    var rest := image + (if version != "" then ":" + version else "");
    ImageVersionHasNoSlash(image, version);
    LastIndexOfAbsent(rest, '/');
    SplitImageVersionInverts(image, version);
  }

  lemma ImageVersionHasNoSlash(image: string, version: string)
    requires PlainSegment(image) && PlainSegment(version)
    ensures '/' !in image + (if version != "" then ":" + version else "")
  {
    var suffix := if version != "" then ":" + version else "";
    assert '/' !in suffix;
    assert forall c :: c in image + suffix ==> c in image || c in suffix;
  }

  /** Which field a rejected request is missing. */
  datatype ValidationError =
    | MissingTarget
    | MissingRepository
    | MissingTag
    | MissingImage
    | MissingPath
    | MissingSourceTag
    | MissingTargetTag
    | MissingSourceImage
    | MissingTargetImage

  datatype LoginRequest = LoginRequest(target: Option<Target>, repository: string, credentials: string)

  /** LoginRequest.Validate: a target and a repository are both required. */
  function ValidateLogin(r: LoginRequest): (o: Outcome<ValidationError>)
    ensures o.Pass? <==> r.target.Some? && r.repository != ""
    ensures r.target.None? ==> o == Fail(MissingTarget)
  {
    if r.target.None? then Fail(MissingTarget)
    else if r.repository == "" then Fail(MissingRepository)
    else Pass
  }

  datatype BuildRequest = BuildRequest(target: Option<Target>, tag: Option<Tag>, path: string, arguments: seq<(string, string)>)

  /** BuildRequest.Validate: a target, a tag with an image, and a path; arguments are optional. */
  function ValidateBuild(r: BuildRequest): (o: Outcome<ValidationError>)
    ensures o.Pass? <==> r.target.Some? && r.tag.Some? && r.tag.value.image != "" && r.path != ""
  {
    if r.target.None? then Fail(MissingTarget)
    else if r.tag.None? then Fail(MissingTag)
    else if r.tag.value.image == "" then Fail(MissingImage)
    else if r.path == "" then Fail(MissingPath)
    else Pass
  }

  /** Whether a build request is valid does not depend on its arguments. */
  lemma ValidateBuildIgnoresArguments(r: BuildRequest, arguments: seq<(string, string)>)
    ensures ValidateBuild(r.(arguments := arguments)) == ValidateBuild(r)
  {
  }

  datatype TagRequest = TagRequest(target: Option<Target>, sourceTag: Option<Tag>, targetTag: Option<Tag>)

  /** TagRequest.Validate: a target and two tags, each naming an image. */
  function ValidateTag(r: TagRequest): (o: Outcome<ValidationError>)
    ensures o.Pass? <==>
              && r.target.Some?
              && r.sourceTag.Some? && r.sourceTag.value.image != ""
              && r.targetTag.Some? && r.targetTag.value.image != ""
  {
    if r.target.None? then Fail(MissingTarget)
    else if r.sourceTag.None? then Fail(MissingSourceTag)
    else if r.targetTag.None? then Fail(MissingTargetTag)
    else if r.sourceTag.value.image == "" then Fail(MissingSourceImage)
    else if r.targetTag.value.image == "" then Fail(MissingTargetImage)
    else Pass
  }
}
