/** Image references: `pybox/registry/client.py`. */
module ImageReferences {
  import opened Strings

  datatype Reference = Reference(registry: string, repository: string, tag: string)

  const HUB := "registry-1.docker.io"

  // ---------------------------------------------------------------------------------------
  // Parsing and printing

  predicate LooksLikeRegistry(part: string) {
    '.' in part || ':' in part || part == "localhost"
  }

  function SplitTag(image: string): (string, string) {
    var components := Split(image, '/');
    if ':' in components[|components| - 1] then
      TagExactly(image);
      var k := LastIndex(image, ':');
      (image[..k], image[k + 1..])
    else (image, "latest")
  }

  /** The last component has a colon exactly when no slash follows the last colon. */
  lemma {:induction false} TagExactly(image: string)
    ensures ':' in Split(image, '/')[|Split(image, '/')| - 1]
            <==> ':' in image && '/' !in image[LastIndex(image, ':') + 1..]
  {
    LastPart(image, '/');
    if ':' in image {
      var k := LastIndex(image, ':');
      if '/' in image {
        var m := LastIndex(image, '/');
        InSuffix(image, ':', m + 1, k);
        InSuffix(image, '/', k + 1, m);
        NotInShorter(image, ':', k + 1, m + 1);
        NotInShorter(image, '/', m + 1, k + 1);
      } else {
        assert image[0..] == image;
        NotInShorter(image, '/', 0, k + 1);
      }
    } else {
      NoneInTail(image, '/', ':');
    }
  }

  function Parse(image: string): Reference {
    var (name, tag) := SplitTag(image);
    var parts := Split(name, '/');
    if |parts| >= 2 && LooksLikeRegistry(parts[0]) then
      Reference(parts[0], Join(parts[1..], '/'), tag)
    else
      Reference(HUB, if '/' in name then name else "library/" + name, tag)
  }

  function Print(r: Reference): string {
    r.registry + "/" + r.repository + ":" + r.tag
  }

  predicate IsNormal(r: Reference) {
    && '/' !in r.registry && LooksLikeRegistry(r.registry)
    && '/' !in r.tag && ':' !in r.tag
  }

  lemma SplitsAtTag(name: string, tag: string)
    requires '/' !in tag && ':' !in tag
    ensures SplitTag(name + ":" + tag) == (name, tag)
  {
    var image := name + ":" + tag;
    assert image[|name| + 1..] == tag && image[..|name|] == name;
    LastIndexIs(image, ':', |name|);
    TagExactly(image);
  }

  lemma TagIsClean(image: string)
    ensures '/' !in SplitTag(image).1 && ':' !in SplitTag(image).1
  {
    TagExactly(image);
  }

  lemma RegistryPart(name: string)
    ensures '/' !in Split(name, '/')[0]
  {
  }

  /** Whatever the string, the tag has neither separator, the registry has no slash and would be recognised
  as a registry again. */
  lemma ParseIsNormal(image: string)
    ensures IsNormal(Parse(image))
  {
    TagIsClean(image);
    RegistryPart(SplitTag(image).0);
    assert HUB[10] == '.';
  }

  lemma PartsOf(registry: string, repository: string)
    requires '/' !in registry
    ensures Split(registry + "/" + repository, '/') == [registry] + Split(repository, '/')
  {
    var name := registry + "/" + repository;
    assert name[..|registry|] == registry && name[|registry| + 1..] == repository;
    IndexIs(name, '/', |registry|);
  }

  lemma ParsePrinted(r: Reference)
    requires IsNormal(r)
    ensures Parse(Print(r)) == r
  {
    SplitsAtTag(r.registry + "/" + r.repository, r.tag);
    PartsOf(r.registry, r.repository);
    JoinSplit(r.repository, '/');
  }

  /** A printed reference is read back unchanged exactly when it is normal. */
  lemma ReadBackExactly(r: Reference)
    ensures Parse(Print(r)) == r <==> IsNormal(r)
  {
    if IsNormal(r) {
      ParsePrinted(r);
    } else {
      ParseIsNormal(Print(r));
    }
  }

  /** For every string, the printed form of its parse is a normal form: parsing it again gives the same triple,
  and two strings have the same normal form exactly when they parse alike. */
  lemma NormalForm(image: string, other: string)
    ensures Parse(Print(Parse(image))) == Parse(image)
    ensures Print(Parse(image)) == Print(Parse(other)) <==> Parse(image) == Parse(other)
  {
    ParseIsNormal(image);
    ParsePrinted(Parse(image));
    ParseIsNormal(other);
    ParsePrinted(Parse(other));
  }

  /** A first component with a dot or a colon, or `localhost`, is the registry, with or without a tag behind. */
  lemma RegistryIsRead(host: string, rest: string, tag: string)
    requires '/' !in host && ('.' in host || ':' in host || host == "localhost") && '/' !in tag && ':' !in tag
    ensures Parse(host + "/" + rest + ":" + tag) == Reference(host, rest, tag)
    ensures ':' !in rest ==> Parse(host + "/" + rest) == Reference(host, rest, "latest")
  {
    SplitsAtTag(host + "/" + rest, tag);
    PartsOf(host, rest);
    JoinSplit(rest, '/');
    if ':' !in rest { NoTag(host, rest); }
  }

  lemma ColonIsEarly(first: string, rest: string, k: nat)
    requires ':' !in rest && k < |first + "/" + rest| && (first + "/" + rest)[k] == ':'
    ensures k < |first|
  {
    var image := first + "/" + rest;
    assert forall i :: |first| < i < |image| ==> image[i] == rest[i - |first| - 1];
  }

  lemma NoTag(first: string, rest: string)
    requires ':' !in rest
    ensures SplitTag(first + "/" + rest) == (first + "/" + rest, "latest")
  {
    var image := first + "/" + rest;
    TagExactly(image);
    if ':' in image {
      var k := LastIndex(image, ':');
      ColonIsEarly(first, rest, k);
      assert image[|first|] == '/';
      InSuffix(image, '/', k + 1, |first|);
    }
  }

  /** A first component without a dot or a colon, other than `localhost`, is a namespace of the hub. */
  lemma HubNamespace(user: string, rest: string, tag: string)
    requires '/' !in user && '.' !in user && ':' !in user && user != "localhost" && '/' !in tag && ':' !in tag
    ensures Parse(user + "/" + rest + ":" + tag)
            == Reference("registry-1.docker.io", user + "/" + rest, tag)
  {
    SplitsAtTag(user + "/" + rest, tag);
    PartsOf(user, rest);
    assert (user + "/" + rest)[|user|] == '/';
  }

  /** A reference without a registry is looked up on the hub, and a bare name in its `library/` namespace. */
  lemma HubDefaults(name: string, tag: string)
    requires '/' !in name && '/' !in tag && ':' !in tag
    ensures Parse(name + ":" + tag) == Reference("registry-1.docker.io", "library/" + name, tag)
    ensures ':' !in name ==> Parse(name) == Reference("registry-1.docker.io", "library/" + name, "latest")
  {
    SplitsAtTag(name, tag);
    TagExactly(name);
  }
}
