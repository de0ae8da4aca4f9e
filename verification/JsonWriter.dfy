/** The canonical writer as it is written: a recursion that appends to one shared buffer, looping over
    items and over sorted keys. */
module JsonWriter {
  import opened StageTypes
  import opened JsonText
  import opened JsonReader
  import opened CanonicalJson

  class Buffer {
    var text: string

    constructor ()
      ensures text == ""
    {
      text := "";
    }

    method Append(s: string)
      modifies this
      ensures text == old(text) + s
    {
      text := text + s;
    }
  }

  /** Collects the keys of an object and sorts them. */
  method SortKeys(keys: set<string>) returns (s: seq<string>)
    ensures s == Sorted(keys)
  {
    s := [];
    var todo := keys;
    while exists k :: k in todo
      invariant todo <= keys && Ascending(s)
      invariant forall k :: k in s <==> k in keys && k !in todo
      decreases |todo|
    {
      var k :| k in todo;
      InsertKeeps(s, k);
      s := Insert(s, k);
      todo := todo - {k};
    }
    AscendingIsUnique(s, Sorted(keys));
  }

  /** Writes a value; `path` is where it stands in its document. */
  method WriteValue(out: Buffer, v: Json, ghost path: Path)
    modifies out
    ensures IsOrder(ByKeys) && out.text == old(out.text) + Write(v, ByKeys, path)
    decreases v, 2
  {
    SortedIsOrder();
    match v {
      case Null => out.Append("null");
      case Bool(truth) => if truth { out.Append("true"); } else { out.Append("false"); }
      case Str(text) => out.Append(Quoted(text));
      case Num(lexeme) => out.Append(lexeme);
      case Arr(_) => WriteItems(out, v, path);
      case Obj(_) => WriteMembers(out, v, path);
    }
  }

  /** What is still to be written before item i. */
  ghost function ItemsFrom(v: Json, path: Path, i: nat): string
    requires v.Arr? && i <= |v.items|
  {
    SortedIsOrder();
    if 0 < i < |v.items| then "," + Items(v, ByKeys, path, i) else Items(v, ByKeys, path, i)
  }

  lemma ItemFollows(v: Json, path: Path, i: nat)
    requires v.Arr? && i < |v.items|
    ensures IsOrder(ByKeys) &&
            Items(v, ByKeys, path, i) == Write(v.items[i], ByKeys, path + [At(i)]) + ItemsFrom(v, path, i + 1)
  {
    hide Write;
    SortedIsOrder();
    Regroup(Write(v.items[i], ByKeys, path + [At(i)]), ",", Items(v, ByKeys, path, i + 1));
  }

  lemma MemberFollows(v: Json, path: Path, keys: seq<string>, i: nat)
    requires v.Obj? && i < |keys| && forall k | k in keys :: k in v.fields
    ensures IsOrder(ByKeys) && keys[i] in v.fields
    ensures Members(v, ByKeys, path, keys[i..]) ==
            Quoted(keys[i]) + ":" + Write(v.fields[keys[i]], ByKeys, path + [Under(keys[i])]) +
                MembersFrom(v, path, keys, i + 1)
  {
    hide Write, Quoted;
    SortedIsOrder();
    assert keys[i..][0] == keys[i] && keys[i..][1..] == keys[i + 1..];
    Regroup(Quoted(keys[i]) + ":" + Write(v.fields[keys[i]], ByKeys, path + [Under(keys[i])]), ",",
            Members(v, ByKeys, path, keys[i + 1..]));
  }

  method WriteItems(out: Buffer, v: Json, ghost path: Path)
    requires v.Arr?
    modifies out
    ensures IsOrder(ByKeys) && out.text == old(out.text) + Write(v, ByKeys, path)
    decreases v, 0
  {
    hide Write, Items;
    SortedIsOrder();
    ghost var whole := out.text + "[" + Items(v, ByKeys, path, 0);
    out.Append("[");
    for i := 0 to |v.items|
      invariant out.text + ItemsFrom(v, path, i) == whole
    {
      ghost var before := out.text;
      if i > 0 {
        out.Append(",");
        Regroup(before, ",", Items(v, ByKeys, path, i));
      }
      before := out.text;
      WriteValue(out, v.items[i], path + [At(i)]);
      ItemFollows(v, path, i);
      Regroup(before, Write(v.items[i], ByKeys, path + [At(i)]), ItemsFrom(v, path, i + 1));
    }
    NoMoreItems(v, path);
    out.Append("]");
    ArrayText(v, path);
    Regroup(old(out.text), "[", Items(v, ByKeys, path, 0));
    Regroup(old(out.text), "[" + Items(v, ByKeys, path, 0), "]");
  }

  lemma ArrayText(v: Json, path: Path)
    requires v.Arr?
    ensures IsOrder(ByKeys) && Write(v, ByKeys, path) == "[" + Items(v, ByKeys, path, 0) + "]"
  {
    SortedIsOrder();
  }

  lemma ObjectText(v: Json, path: Path)
    requires v.Obj?
    ensures IsOrder(ByKeys) &&
            Write(v, ByKeys, path) == "{" + Members(v, ByKeys, path, ByKeys(path, v.fields.Keys)) + "}"
  {
    SortedIsOrder();
  }

  /** What is still to be written before the key at index i. */
  ghost function MembersFrom(v: Json, path: Path, keys: seq<string>, i: nat): string
    requires v.Obj? && i <= |keys| && forall k | k in keys :: k in v.fields
  {
    SortedIsOrder();
    if 0 < i < |keys| then "," + Members(v, ByKeys, path, keys[i..]) else Members(v, ByKeys, path, keys[i..])
  }

  /** One key and its value. */
  method WriteMember(out: Buffer, v: Json, ghost path: Path, key: string)
    requires v.Obj? && key in v.fields
    modifies out
    ensures IsOrder(ByKeys) &&
            out.text == old(out.text) + (Quoted(key) + ":" + Write(v.fields[key], ByKeys, path + [Under(key)]))
    decreases v, 0
  {
    hide Quoted, Write;
    SortedIsOrder();
    out.Append(Quoted(key));
    out.Append(":");
    WriteValue(out, v.fields[key], path + [Under(key)]);
    Regroup(old(out.text), Quoted(key), ":");
    Regroup(old(out.text), Quoted(key) + ":", Write(v.fields[key], ByKeys, path + [Under(key)]));
  }

  method WriteMembers(out: Buffer, v: Json, ghost path: Path)
    requires v.Obj?
    modifies out
    ensures IsOrder(ByKeys) && out.text == old(out.text) + Write(v, ByKeys, path)
    decreases v, 1
  {
    hide Write, Quoted, Members;
    SortedIsOrder();
    var keys := SortKeys(v.fields.Keys);
    ghost var whole := out.text + "{" + Members(v, ByKeys, path, keys);
    out.Append("{");
    assert keys[0..] == keys;
    for i := 0 to |keys|
      invariant out.text + MembersFrom(v, path, keys, i) == whole
    {
      ghost var before := out.text;
      if i > 0 {
        out.Append(",");
        Regroup(before, ",", Members(v, ByKeys, path, keys[i..]));
      }
      before := out.text;
      MemberFollows(v, path, keys, i);
      WriteMember(out, v, path, keys[i]);
      Regroup(before, Quoted(keys[i]) + ":" + Write(v.fields[keys[i]], ByKeys, path + [Under(keys[i])]),
              MembersFrom(v, path, keys, i + 1));
    }
    NoMoreMembers(v, path, keys);
    out.Append("}");
    ObjectText(v, path);
    Regroup(old(out.text), "{", Members(v, ByKeys, path, keys));
    Regroup(old(out.text), "{" + Members(v, ByKeys, path, keys), "}");
  }

  lemma NoMoreItems(v: Json, path: Path)
    requires v.Arr?
    ensures ItemsFrom(v, path, |v.items|) == ""
  {
  }

  lemma NoMoreMembers(v: Json, path: Path, keys: seq<string>)
    requires v.Obj? && forall k | k in keys :: k in v.fields
    ensures MembersFrom(v, path, keys, |keys|) == ""
  {
  }

  /** Decodes one value and writes it canonically. */
  method NormalizeText(raw: string) returns (r: Option<string>)
    ensures r == Normalize(raw)
  {
    var v := Parse(raw);
    if v.None? { return None; }
    var out := new Buffer();
    WriteValue(out, v.value, []);
    assert "" + Canonical(v.value) == Canonical(v.value);
    r := Some(out.text);
  }
}
