/**
 * Docker image names for a devcontainer build: the container name is
 * sanitised to the characters Docker accepts and tagged with the configured
 * version.
 *
 * Lowercasing covers the ASCII letters only.
 */
module ImageBuilder {
  import opened Common

  /** The characters Docker accepts in an image name: `a-z`, `0-9`, `.`, `_` and `-`. */
  predicate IsAllowed(c: char)
  {
    ('a' <= c <= 'z') || ('0' <= c <= '9') || c == '.' || c == '_' || c == '-'
  }

  predicate IsAsciiUpper(c: char)
  {
    'A' <= c <= 'Z'
  }

  /** Every character of `s` is one Docker accepts. */
  predicate IsDockerName(s: string)
  {
    forall i :: 0 <= i < |s| ==> IsAllowed(s[i])
  }

  /** ASCII lowercasing of one character. */
  function ToLower(c: char): (r: char)
    ensures IsAsciiUpper(c) ==> 'a' <= r <= 'z' && r as int == c as int + 32
    ensures !IsAsciiUpper(c) ==> r == c
  {
    if IsAsciiUpper(c) then (c as int + 32) as char else c
  }

  /** One character of the sanitised name: lowercased, and `-` when Docker would refuse it. */
  function SanitizeChar(c: char): (r: char)
    ensures IsAllowed(r)
    ensures IsAllowed(c) ==> r == c
    ensures IsAsciiUpper(c) ==> r == ToLower(c)
    ensures !IsAllowed(c) && !IsAsciiUpper(c) ==> r == '-'
  {
    var lower := ToLower(c);
    if IsAllowed(lower) then lower else '-'
  }

  /** `sanitize_docker_name`: the name mapped one character at a time. */
  function Sanitize(name: string): (r: string)
    ensures |r| == |name|
    ensures forall i :: 0 <= i < |name| ==> r[i] == SanitizeChar(name[i])
    ensures IsDockerName(r)
  {
    if name == [] then [] else [SanitizeChar(name[0])] + Sanitize(name[1..])
  }

  /** Sanitising an already sanitised name changes nothing. */
  lemma SanitizeIdempotent(name: string)
    ensures Sanitize(Sanitize(name)) == Sanitize(name)
  {
  }

  /** A name is left unchanged exactly when all its characters are already allowed. */
  lemma SanitizeFixedIff(name: string)
    ensures Sanitize(name) == name <==> IsDockerName(name)
  {
    if Sanitize(name) == name {
      assert forall i :: 0 <= i < |name| ==> IsAllowed(name[i]) by {
        forall i | 0 <= i < |name| ensures IsAllowed(name[i]) {
          assert Sanitize(name)[i] == name[i];
        }
      }
    }
  }

  /** Sanitising distributes over concatenation. */
  lemma SanitizeAppend(a: string, b: string)
    ensures Sanitize(a + b) == Sanitize(a) + Sanitize(b)
  {
  }

  /** The devcontainer configuration: its `name` and `version`, when they are strings. */
  datatype DevContainerConfig = DevContainerConfig(name: Option<string>, version: Option<string>)

  const NameError: string := "Failed to determine container name from path"

  const Suffix: string := "-devcontainer:"

  /** The version to tag with: the configured one, or "latest". */
  function VersionOf(config: DevContainerConfig): (v: string)
    ensures config.version.Some? ==> v == config.version.value
    ensures config.version.None? ==> v == "latest"
  {
    match config.version
    case Some(v) => v
    case None => "latest"
  }

  /**
   * `generate_image_name`: the sanitised configured name, or else the
   * sanitised name of the parent directory, followed by `-devcontainer:` and
   * the version. `parentDir` is the parent directory's name, when the path
   * has one that is valid text.
   */
  function GenerateImageName(config: DevContainerConfig, parentDir: Option<string>): (r: Result<string, string>)
    ensures r.Err? <==> config.name.None? && parentDir.None?
    ensures r.Err? ==> r.error == NameError
    ensures r.Ok? && config.name.Some? ==> r.value == Sanitize(config.name.value) + Suffix + VersionOf(config)
    ensures r.Ok? && config.name.None? ==> r.value == Sanitize(parentDir.value) + Suffix + VersionOf(config)
  {
    var name :=
      match config.name
      case Some(n) => Ok(Sanitize(n))
      case None =>
        match parentDir
        case Some(dir) => Ok(Sanitize(dir))
        case None => Err(NameError);
    match name
    case Ok(n) => Ok(n + Suffix + VersionOf(config))
    case Err(e) => Err(e)
  }

  /** Position of the first `:` in `s`, or `|s|` when there is none. */
  function ColonIndex(s: string): (r: nat)
    ensures r <= |s|
    ensures forall i :: 0 <= i < r ==> s[i] != ':'
    ensures r < |s| ==> s[r] == ':'
  {
    if s == [] || s[0] == ':' then 0 else 1 + ColonIndex(s[1..])
  }

  /** The repository part of an image reference: everything before the first `:`. */
  function Repository(image: string): string
  {
    image[..ColonIndex(image)]
  }

  /** The tag of an image reference: everything after the first `:`. */
  function Tag(image: string): string
  {
    var k := ColonIndex(image);
    if k < |image| then image[k + 1..] else ""
  }

  lemma SplitAtFirstColon(p: string, t: string)
    requires forall i :: 0 <= i < |p| ==> p[i] != ':'
    ensures Repository(p + ":" + t) == p
    ensures Tag(p + ":" + t) == t
  {
    var s := p + ":" + t;
    assert s[|p|] == ':';
    var k := ColonIndex(s);
    assert k == |p|;
    assert s[..k] == p;
    assert s[k + 1..] == t;
  }

  /**
   * The generated reference splits back into its parts: the repository is
   * the sanitised name followed by `-devcontainer`, all of it characters
   * Docker accepts, and the tag is the version.
   */
  lemma ImageNameSplits(config: DevContainerConfig, parentDir: Option<string>)
    requires GenerateImageName(config, parentDir).Ok?
    ensures var image := GenerateImageName(config, parentDir).value;
            var base := if config.name.Some? then config.name.value else parentDir.value;
            && Repository(image) == Sanitize(base) + "-devcontainer"
            && IsDockerName(Repository(image))
            && Tag(image) == VersionOf(config)
  {
    var base := if config.name.Some? then config.name.value else parentDir.value;
    var p := Sanitize(base) + "-devcontainer";
    assert IsDockerName(p);
    assert GenerateImageName(config, parentDir).value == p + ":" + VersionOf(config);
    SplitAtFirstColon(p, VersionOf(config));
  }
}
