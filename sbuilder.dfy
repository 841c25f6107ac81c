/** The string builder `SBuilder` (template.c:14-77): an owned, growable byte buffer that is
    filled by appends and finalised into a NUL-terminated string of exactly the right size. */
module StringBuilder {
  import opened CStrings
  import opened Allocation
  import BuilderSpec

  /** The process exit status the source uses when an allocation fails. */
  const ALLOC_FAILURE: int := 71

  /** An operation either completes with a value or ends the process with an exit status. */
  datatype Outcome<T> = Done(value: T) | Exited(status: int)

  class SBuilder {
    var data: array<Byte>
    var count: nat
    var cap: nat

    ghost predicate Valid()
      reads this
    {
      data.Length == cap && 1 <= cap && count <= cap
    }

    /** The abstract value the methods are specified against: the characters appended so far
        and the capacity. */
    ghost function Model(): BuilderSpec.Builder
      reads this, data
      requires Valid()
    {
      BuilderSpec.Builder(data[..count], cap)
    }

    constructor Of(storage: array<Byte>)
      requires storage.Length == 1
      ensures data == storage && count == 0 && cap == 1 && Valid()
    {
      data, count, cap := storage, 0, 1;
    }

    /** `sbuilder_init`: an empty builder over one zeroed byte, or exit status 71. */
    static method Init(mem: Allocator) returns (r: Outcome<SBuilder>)
      ensures r.Exited? <==> mem.limit < 1
      ensures r.Exited? ==> r.status == ALLOC_FAILURE
      ensures r.Done? ==> fresh(r.value) && fresh(r.value.data) && r.value.Valid()
      ensures r.Done? ==> r.value.count == 0 && r.value.cap == 1 && r.value.data[..] == [NUL]
      ensures r.Done? ==> r.value.Model() == BuilderSpec.Init()
    {
      var block := mem.Calloc(1);
      if block.None? {
        return Exited(ALLOC_FAILURE);
      }
      var sb := new SBuilder.Of(block.value);
      return Done(sb);
    }

    /** `sbuilder_appendchar`, with the capacity check moved ahead of the write: the source
        writes first and so overruns the storage whenever `count == cap`
        (see BuilderSpec.AsWrittenAppendChar). The count and capacity are the same in both
        orders; the source's order can lose `c` when `count == cap`. */
    method AppendChar(c: Byte, mem: Allocator) returns (r: Outcome<()>)
      requires Valid()
      modifies this, data
      ensures Valid() && (data == old(data) || fresh(data))
      ensures r.Exited? <==> old(count) + 1 > old(cap) && 2 * old(cap) > mem.limit
      ensures r.Exited? ==> r.status == ALLOC_FAILURE && Model() == old(Model())
      ensures r.Done? ==> Model() == BuilderSpec.AppendChar(old(Model()), c)
    {
      if count + 1 > cap {
        var grown := mem.Realloc(data, cap * 2);
        if grown.None? {
          return Exited(ALLOC_FAILURE);
        }
        data, cap := grown.value, cap * 2;
      }
      data[count] := c;
      count := count + 1;
      return Done(());
    }

    /** `sbuilder_append`: appends the characters of the C string `text` one at a time, stopping
        at its terminator, or ends with status 71 as soon as one append fails. */
    method Append(text: seq<Byte>, mem: Allocator) returns (r: Outcome<()>)
      requires Valid() && NUL in text
      modifies this, data
      ensures Valid() && (data == old(data) || fresh(data))
      ensures r.Exited? <==> !BuilderSpec.AppendsFit(old(Model()), CStr(text), mem.limit)
      ensures r.Exited? ==> r.status == ALLOC_FAILURE && count == cap && 2 * cap > mem.limit
      ensures r.Exited? ==> old(Model().contents) <= Model().contents < old(Model().contents) + CStr(text)
      ensures r.Done? ==> Model() == BuilderSpec.AppendChars(old(Model()), CStr(text))
    {
      ghost var s := CStr(text);
      var i := 0;
      while text[i] != NUL
        invariant i <= |s|
        invariant text[..i] == s[..i]
        invariant Valid() && (data == old(data) || fresh(data))
        invariant Model() == BuilderSpec.AppendChars(old(Model()), text[..i])
        invariant BuilderSpec.AppendsFit(old(Model()), s, mem.limit) <==>
          BuilderSpec.AppendsFit(Model(), s[i..], mem.limit)
        decreases |text| - i
      {
        ghost var before := Model();
        assert s[i..][0] == text[i] && s[i..][1..] == s[i + 1..];
        assert BuilderSpec.AppendsFit(before, s[i..], mem.limit) <==>
          (|before.contents| + 1 > before.cap ==> 2 * before.cap <= mem.limit) &&
          BuilderSpec.AppendsFit(BuilderSpec.AppendChar(before, text[i]), s[i + 1..], mem.limit);
        r := AppendChar(text[i], mem);
        if r.Exited? {
          assert Model().contents == old(Model().contents) + text[..i];
          return;
        }
        BuilderSpec.AppendCharsSnoc(old(Model()), text[..i], text[i]);
        assert text[..i + 1] == text[..i] + [text[i]];
        i := i + 1;
      }
      assert text[..i] == s && s[i..] == [];
      return Done(());
    }

    /** `sbuilder_string`: appends the terminator, shrinks the storage to exactly the count and
        returns it (the builder keeps the same array, as in the source), or ends with status 71
        when either allocation fails. */
    method Finalize(mem: Allocator) returns (r: Outcome<array<Byte>>)
      requires Valid()
      modifies this, data
      ensures Valid()
      ensures r.Exited? <==>
        (old(count) + 1 > old(cap) && 2 * old(cap) > mem.limit) || old(count) + 1 > mem.limit
      ensures r.Exited? ==> r.status == ALLOC_FAILURE
      ensures r.Done? ==> fresh(r.value) && r.value == data
      ensures r.Done? ==> Model() == BuilderSpec.Finalize(old(Model()))
      ensures r.Done? ==> r.value[..] == old(Model().contents) + [NUL]
      ensures r.Done? ==> count == old(count) + 1 && cap == count == r.value.Length
    {
      var appended := AppendChar(NUL, mem);
      if appended.Exited? {
        return Exited(appended.status);
      }
      var shrunk := mem.Realloc(data, count);
      if shrunk.None? {
        return Exited(ALLOC_FAILURE);
      }
      data, cap := shrunk.value, count;
      return Done(data);
    }
  }

  /** The builder's life cycle as the program drives it (template.c:88-94): create a builder,
      append a C string, finalise. The result is the string's characters and one zero byte. */
  method Build(text: seq<Byte>, mem: Allocator) returns (r: Outcome<array<Byte>>)
    requires NUL in text
    ensures r.Exited? ==> r.status == ALLOC_FAILURE
    ensures r.Done? <==>
      && 1 <= mem.limit
      && BuilderSpec.AppendsFit(BuilderSpec.Init(), CStr(text) + [NUL], mem.limit)
      && |CStr(text)| + 1 <= mem.limit
    ensures 2 * (|CStr(text)| + 1) <= mem.limit ==> r.Done?
    ensures r.Done? ==> r.value[..] == CStr(text) + [NUL] && r.value.Length == |CStr(text)| + 1
  {
    BuilderSpec.AppendsFitConcat(BuilderSpec.Init(), CStr(text), [NUL], mem.limit);
    assert [NUL][1..] == [];
    if 2 * (|CStr(text)| + 1) <= mem.limit {
      BuilderSpec.AppendsFitUnderDoubleCount(BuilderSpec.Init(), CStr(text) + [NUL], mem.limit);
    }
    var created := SBuilder.Init(mem);
    if created.Exited? {
      return Exited(created.status);
    }
    var sb := created.value;
    var appended := sb.Append(text, mem);
    if appended.Exited? {
      return Exited(appended.status);
    }
    r := sb.Finalize(mem);
  }
}
