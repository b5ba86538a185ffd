/** The part of the filesystem a skill loader sees: a tree of named files and directories. */
module FileTree {
  import opened Wrappers
  import opened Text

  /** A directory lists its entries in the order the operating system reports them. */
  datatype Node = File(content: string) | Dir(entries: seq<Entry>)
  datatype Entry = Entry(name: string, node: Node)

  /** The entry called `name` in a directory listing (`(dir / name).exists()`). */
  function Lookup(entries: seq<Entry>, name: string): (r: Option<Node>)
    ensures r.Some? <==> exists i :: 0 <= i < |entries| && entries[i].name == name
    ensures r.Some? ==> exists i :: 0 <= i < |entries| && entries[i].name == name && entries[i].node == r.value
  {
    if entries == [] then None
    else if entries[0].name == name then Some(entries[0].node)
    else
      var r := Lookup(entries[1..], name);
      assert r.Some? ==> entries[1..][0..][0] == entries[1];
      r
  }

  /** The entry `name` inside `n`; nothing exists inside a regular file. */
  function Child(n: Node, name: string): Option<Node>
  {
    match n
    case File(_) => None
    case Dir(es) => Lookup(es, name)
  }

  /** Follows a relative path, one segment at a time. */
  function Resolve(n: Node, segments: seq<string>): Option<Node>
    decreases |segments|
  {
    if segments == [] then Some(n)
    else
      match Child(n, segments[0])
      case None => None
      case Some(c) => Resolve(c, segments[1..])
  }

  /** `dir / name` */
  function PathJoin(dir: string, name: string): string
  {
    dir + "/" + name
  }

  /** The index of the last '.', or -1 (`name.rfind('.')`). */
  function LastDot(name: string): (i: int)
    ensures -1 <= i < |name|
    ensures 0 <= i ==> name[i] == '.'
    ensures forall j :: i < j < |name| ==> name[j] != '.'
  {
    if name == [] then -1
    else if name[|name| - 1] == '.' then |name| - 1
    else LastDot(name[..|name| - 1])
  }

  /** `PurePath.suffix`: from the last dot, unless the dot leads or ends the name. */
  function Suffix(name: string): string
  {
    var i := LastDot(name);
    if 0 < i < |name| - 1 then name[i..] else ""
  }

  /** `PurePath.stem` */
  function Stem(name: string): string
  {
    var i := LastDot(name);
    if 0 < i < |name| - 1 then name[..i] else name
  }

  /** A name is its stem followed by its suffix. */
  lemma StemSuffix(name: string)
    ensures Stem(name) + Suffix(name) == name
  {
    var i := LastDot(name);
    if 0 < i < |name| - 1 {
      assert name[..i] + name[i..] == name;
    }
  }

  /** The listing of a directory node, and no entries for a file or for nothing. */
  function DirEntries(n: Option<Node>): seq<Entry>
  {
    if n.Some? && n.value.Dir? then n.value.entries else []
  }

  /** A listing with the entry called `name` replaced, or appended when there is none. */
  function SetEntry(entries: seq<Entry>, name: string, node: Node): (r: seq<Entry>)
    ensures Lookup(r, name) == Some(node)
    ensures forall other :: other != name ==> Lookup(r, other) == Lookup(entries, other)
  {
    if entries == [] then [Entry(name, node)]
    else if entries[0].name == name then [Entry(name, node)] + entries[1..]
    else
      var r := [entries[0]] + SetEntry(entries[1..], name, node);
      assert r[1..] == SetEntry(entries[1..], name, node);
      r
  }

  /** An update that changes at most the names `c1` and `c2` keeps the entry of any other name. */
  lemma LookupKept(es: seq<Entry>, es': seq<Entry>, c1: string, c2: string, o: string)
    requires forall x {:trigger Lookup(es', x)} :: x != c1 && x != c2 ==> Lookup(es', x) == Lookup(es, x)
    requires o != c1 && o != c2
    ensures Lookup(es', o) == Lookup(es, o)
  {
  }

  /** Three listing updates in a row, where the first changes only `md`, the second only `sc`
      and the third only `rf` and `at`: every other name keeps its entry. */
  lemma LookupThroughSteps(entries: seq<Entry>, es1: seq<Entry>, es2: seq<Entry>, es3: seq<Entry>,
                           md: string, sc: string, rf: string, at: string)
    requires forall o {:trigger Lookup(es1, o)} :: o != md ==> Lookup(es1, o) == Lookup(entries, o)
    requires forall o {:trigger Lookup(es2, o)} :: o != sc ==> Lookup(es2, o) == Lookup(es1, o)
    requires forall o {:trigger Lookup(es3, o)} :: o != rf && o != at ==> Lookup(es3, o) == Lookup(es2, o)
    ensures forall other {:trigger Lookup(es3, other)} ::
      other != md && other != sc && other != rf && other != at ==> Lookup(es3, other) == Lookup(entries, other)
  {
  }
}
