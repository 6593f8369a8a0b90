/**
  Browser `File`s and the `FormData` multimap the upload handlers build and
  rewrite: an ordered list of (name, value) entries in which one name may
  occur several times.
 */
module Multipart {
  import opened Js

  /** A selected file: its name and its media type (`file.type`). */
  datatype File = File(name: string, mediaType: string)

  /** A `FormData` value is a file or a string. */
  datatype FormValue = FileValue(file: File) | Text(text: string)

  datatype Entry = Entry(name: string, value: FormValue)

  /** `!!v` for the result of `formData.get(…)`: a file is truthy, a string only when non-empty. */
  predicate TruthyValue(v: Option<FormValue>) {
    v.Some? && (v.value.FileValue? || v.value.text != "")
  }

  /** `formData.getAll(name)`: the values stored under `name`, in order. */
  function GetAll(entries: seq<Entry>, name: string): (r: seq<FormValue>)
    ensures |r| <= |entries|
  {
    if entries == [] then []
    else (if entries[0].name == name then [entries[0].value] else []) + GetAll(entries[1..], name)
  }

  /** `formData.get(name)`: the first value stored under `name`, or `null`. */
  function GetFirst(entries: seq<Entry>, name: string): (r: Option<FormValue>)
    ensures r == if GetAll(entries, name) == [] then None else Some(GetAll(entries, name)[0])
  {
    if entries == [] then None
    else if entries[0].name == name then Some(entries[0].value)
    else GetFirst(entries[1..], name)
  }

  /** The entries left by `formData.delete(name)`: every entry under `name` is removed. */
  function Without(entries: seq<Entry>, name: string): (r: seq<Entry>)
    ensures |r| <= |entries|
    ensures forall e :: e in r <==> e in entries && e.name != name
  {
    if entries == [] then []
    else (if entries[0].name == name then [] else [entries[0]]) + Without(entries[1..], name)
  }

  /** `getAll` distributes over concatenation. */
  lemma {:induction false} GetAllAppend(a: seq<Entry>, b: seq<Entry>, name: string)
    ensures GetAll(a + b, name) == GetAll(a, name) + GetAll(b, name)
  {
    if a == [] {
      assert a + b == b;
    } else {
      var head := if a[0].name == name then [a[0].value] else [];
      assert (a + b)[0] == a[0] && (a + b)[1..] == a[1..] + b;
      GetAllAppend(a[1..], b, name);
      calc {
        GetAll(a + b, name);
        head + GetAll(a[1..] + b, name);
        head + (GetAll(a[1..], name) + GetAll(b, name));
        (head + GetAll(a[1..], name)) + GetAll(b, name);
      }
    }
  }

  /** After `delete(name)` nothing is stored under `name`, and every other name keeps its values. */
  lemma {:induction false} GetAllWithout(entries: seq<Entry>, name: string, other: string)
    ensures GetAll(Without(entries, name), other) == if other == name then [] else GetAll(entries, other)
  {
    if entries != [] {
      var head := if entries[0].name == name then [] else [entries[0]];
      GetAllAppend(head, Without(entries[1..], name), other);
      GetAllWithout(entries[1..], name, other);
      if head != [] {
        assert head[1..] == [];
      }
    }
  }

  class FormData {
    /** The entries, in insertion order. */
    var entries: seq<Entry>

    /** `new FormData()` */
    constructor ()
      ensures entries == []
    {
      entries := [];
    }

    /** `formData.get(name)` */
    function Get(name: string): Option<FormValue>
      reads this
    {
      GetFirst(entries, name)
    }

    /** `formData.append(name, value)` adds one entry at the end. */
    method Append(name: string, value: FormValue)
      modifies this
      ensures entries == old(entries) + [Entry(name, value)]
    {
      entries := entries + [Entry(name, value)];
    }

    /** `formData.delete(name)` removes every entry under `name`. */
    method Delete(name: string)
      modifies this
      ensures entries == Without(old(entries), name)
    {
      entries := Without(entries, name);
    }
  }
}
