/** The execution policy of the Docker runner: which images the validating entry
    point may start, and the memory (bytes) and timeout (milliseconds) of each. */
module AllowedImages {
  import opened Wrappers

  const MiB: int := 1024 * 1024

  /** One entry of the table. Both limits are optional in the entry's type; an
      absent one falls back to the runner's default. */
  datatype AllowedImage = AllowedImage(memory: Option<int>, timeout: Option<int>)

  const LiskImage: string := "rbiosas/lisk-docker-runner"
  const SwarmImage: string := "rbiosas/swarm-docker-image"
  const NearJsImage: string := "rbiosas/nearjs-docker-image"

  const Table: map<string, AllowedImage> := map[
    LiskImage := AllowedImage(Some(250 * MiB), Some(10_000)),
    SwarmImage := AllowedImage(Some(100 * MiB), Some(5_000)),
    NearJsImage := AllowedImage(Some(250 * MiB), Some(10_000))
  ]

  /** The property names every plain JavaScript object inherits from
      `Object.prototype` in Node.js. */
  const ObjectPrototypeNames: set<string> := {
    "constructor", "__proto__", "__defineGetter__", "__defineSetter__",
    "__lookupGetter__", "__lookupSetter__", "hasOwnProperty", "isPrototypeOf",
    "propertyIsEnumerable", "toString", "toLocaleString", "valueOf"
  }

  /** `allowedImages[image]` as the runner evaluates it: an own entry of the
      table, else an inherited member of `Object.prototype` (a function or the
      prototype object itself, truthy, with neither `memory` nor `timeout`), else
      `undefined`. */
  function LookupAsWritten(image: string): (r: Option<AllowedImage>)
    ensures r.Some? <==> image in Table.Keys || image in ObjectPrototypeNames
    ensures image in Table.Keys ==> r == Some(Table[image])
    ensures image !in Table.Keys && r.Some? ==> r.value.memory.None? && r.value.timeout.None?
  {
    if image in Table then Some(Table[image])
    else if image in ObjectPrototypeNames then Some(AllowedImage(None, None))
    else None
  }

  /** The allow-list as intended: only the table's own entries admit an image. */
  function Lookup(image: string): (r: Option<AllowedImage>)
    ensures r.Some? <==> image in Table.Keys
    ensures r.Some? ==> r.value == Table[image]
  {
    if image in Table then Some(Table[image]) else None
  }

  /** The table lists exactly the three runner images. */
  lemma TableImages()
    ensures Table.Keys == {LiskImage, SwarmImage, NearJsImage}
    ensures |Table| == 3
  {
    assert LiskImage != SwarmImage && SwarmImage != NearJsImage && LiskImage != NearJsImage;
  }

  /** The limits of each image. */
  lemma TableLimits()
    ensures Table[LiskImage] == AllowedImage(Some(262_144_000), Some(10_000))
    ensures Table[SwarmImage] == AllowedImage(Some(104_857_600), Some(5_000))
    ensures Table[NearJsImage] == AllowedImage(Some(262_144_000), Some(10_000))
  {
  }

  /** Every entry sets both limits to a positive number, so a run admitted by the
      table never falls back to the defaults. */
  lemma EveryEntrySetsLimits(image: string)
    requires image in Table
    ensures Table[image].memory.Some? && Table[image].memory.value > 0
    ensures Table[image].timeout.Some? && Table[image].timeout.value > 0
  {
  }

  /** As written, the check also admits an inherited name such as "constructor",
      which is not an image of the table and brings no limits of its own. */
  lemma PrototypeNameBypassesAllowList()
    ensures "constructor" !in Table
    ensures LookupAsWritten("constructor") == Some(AllowedImage(None, None))
    ensures Lookup("constructor") == None
  {
    assert "constructor" != LiskImage && "constructor" != SwarmImage && "constructor" != NearJsImage;
  }

  /** The two lookups agree on every name that is not inherited from
      `Object.prototype`. */
  lemma LookupAgreesOffPrototype(image: string)
    requires image !in ObjectPrototypeNames
    ensures LookupAsWritten(image) == Lookup(image)
  {
  }
}
