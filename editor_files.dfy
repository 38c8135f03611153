/** The editor's files as the runners exchange them: an array of `{path, content}`
    records, or a `TEditorFileMap`, a plain JavaScript object from path to
    `{content}`. The object is kept as its own keys in enumeration order beside
    the key-to-content map. */
module EditorFiles {

  datatype EditorFile = EditorFile(path: string, content: string)

  datatype FileMap = FileMap(keys: seq<string>, contents: map<string, string>)

  /** Assigning this key on a plain object replaces its prototype instead of
      creating an own property. */
  const ProtoKey: string := "__proto__"

  /** Keys are distinct and are exactly the keys that have a content. */
  ghost predicate Valid(m: FileMap)
  {
    && (forall i, j | 0 <= i < j < |m.keys| :: m.keys[i] != m.keys[j])
    && (forall k :: k in m.contents <==> k in m.keys)
    && ProtoKey !in m.contents
  }

  const Empty: FileMap := FileMap([], map[])

  /** `m[path] = { content }`: a new key goes last, an existing key keeps its
      place and takes the new content. */
  function Put(m: FileMap, path: string, content: string): (r: FileMap)
    requires Valid(m)
    ensures Valid(r)
    ensures path == ProtoKey ==> r == m
    ensures path != ProtoKey ==> r.contents == m.contents[path := content]
    ensures path != ProtoKey && path in m.contents ==> r.keys == m.keys
    ensures path != ProtoKey && path !in m.contents ==> r.keys == m.keys + [path]
  {
    if path == ProtoKey then m
    else if path in m.contents then FileMap(m.keys, m.contents[path := content])
    else FileMap(m.keys + [path], m.contents[path := content])
  }

  /** Every path of a file map can be found at one position of its key order. */
  lemma KeyPosition(m: FileMap, path: string) returns (i: nat)
    requires Valid(m) && path in m.contents
    ensures i < |m.keys| && m.keys[i] == path
  {
    assert path in m.keys;
    i :| 0 <= i < |m.keys| && m.keys[i] == path;
  }
}
