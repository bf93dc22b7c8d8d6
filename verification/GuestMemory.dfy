/**
 How the host hands bytes to a guest: it asks the guest's allocator for a block, which may run
 any guest code, and stores into the guest's linear memory. Everything goes through the plugin
 that was called last. Guest addresses and sizes are not negative.
 */
module GuestMemory {
  import opened Common
  import opened HeaderMap
  import Abi

  type PluginId = nat

  const PROXY_BUFFER_TYPE_HTTP_REQUEST_BODY := 0
  const PROXY_BUFFER_TYPE_HTTP_RESPONSE_BODY := 1
  const PROXY_BUFFER_TYPE_HTTP_CALL_RESPONSE_BODY := 4
  const PROXY_BUFFER_TYPE_PLUGIN_CONFIGURATION := 7

  /** How a guest function with a result answers, and what it leaves in its own memory. */
  datatype Reply = NotExported | Returned(value: nat, mem: Bytes)

  /** proxy_on_memory_allocate, and malloc in case it is asked as well. */
  datatype Allocators = Allocators(first: Reply, second: Reply)

  /** What cur_state gives access to. */
  datatype Source = Source(conf: Bytes, body: Bytes, hasReq: bool, callBody: Option<Bytes>)

  // ------------------------------------------------------------------------------------
  // Specification

  function ValueOf(a: Reply): nat {
    if a.NotExported? then 0 else a.value
  }

  function MemoryAfter(m: Bytes, a: Reply): Bytes {
    if a.NotExported? then m else a.mem
  }

  /** The address of the block: the fallback is asked only when the first answer is 0. */
  function BlockAddr(a: Allocators): nat {
    if ValueOf(a.first) != 0 then ValueOf(a.first) else ValueOf(a.second)
  }

  function AfterAlloc(m: Bytes, a: Allocators): Bytes {
    if ValueOf(a.first) != 0 then MemoryAfter(m, a.first) else MemoryAfter(MemoryAfter(m, a.first), a.second)
  }

  predicate InBounds(m: Bytes, addr: nat, size: nat) {
    addr + size < INT32_LIMIT && addr + size <= |m|
  }

  /** i lies within size bytes from addr. */
  predicate Within(i: int, addr: nat, size: nat) {
    addr <= i < addr + size
  }

  predicate Apart(a: nat, n: nat, b: nat, k: nat) {
    a + n <= b || b + k <= a
  }

  /** The guest has been given data: its two cells describe a block that holds it. */
  predicate Delivered(m: Bytes, data: Bytes, addr: nat, sizeAddr: nat) {
    && InBounds(m, sizeAddr, 4) && Int32At(m, sizeAddr) == |data|
    && (data == [] ||
        (InBounds(m, addr, 4)
         && var p := Int32At(m, addr);
            0 < p && InBounds(m, p, |data|) && m[p..p + |data|] == data))
  }

  /** A store of an int32_t, where there is room for it. */
  function StoredCell(m: Bytes, at: nat, v: int): Bytes {
    if IsInt32(v) && at + 4 <= |m| then Patch(m, at, Le32(v)) else m
  }

  /** The memory once the size is stored and the allocator has run. */
  function Prepared(m: Bytes, len: int, sizeAddr: nat, a: Allocators): Bytes {
    AfterAlloc(StoredCell(m, sizeAddr, len), a)
  }

  /** Everything that a transfer of nonempty data touches is there. */
  predicate Reachable(m: Bytes, len: nat, addr: nat, sizeAddr: nat, a: Allocators) {
    var m1 := Prepared(m, len, sizeAddr, a);
    InBounds(m, sizeAddr, 4) && BlockAddr(a) != 0 && InBounds(m1, BlockAddr(a), len) && InBounds(m1, addr, 4)
  }

  /** The allocator has spared the size cell, and the block and the cells do not overlap. */
  predicate Disjoint(m1: Bytes, len: nat, addr: nat, sizeAddr: nat, block: nat) {
    && Apart(block, len, addr, 4) && Apart(block, len, sizeAddr, 4) && Apart(addr, 4, sizeAddr, 4)
    && sizeAddr + 4 <= |m1| && Int32At(m1, sizeAddr) == len
  }

  /** A transfer has done what it is for: what the allocator left differs in the block and in the
      address cell at most, and unless ranges overlap the data is delivered. */
  ghost predicate Transferred(m: Bytes, m': Bytes, data: Bytes, addr: nat, sizeAddr: nat, a: Allocators) {
    var m1 := Prepared(m, |data|, sizeAddr, a);
    && |m'| == |m1|
    && (forall i :: 0 <= i < |m1| && !Within(i, BlockAddr(a), |data|) && !Within(i, addr, 4) ==> m'[i] == m1[i])
    && (Disjoint(m1, |data|, addr, sizeAddr, BlockAddr(a)) ==> Delivered(m', data, addr, sizeAddr))
  }

  lemma PatchedCell(m: Bytes, at: nat, v: int)
    requires IsInt32(v) && at + 4 <= |m|
    ensures Int32At(Patch(m, at, Le32(v)), at) == v
  {
    Le32RoundTrip(v);
    assert Patch(m, at, Le32(v))[at..at + 4] == Le32(v);
  }

  lemma PatchSpares(m: Bytes, at: nat, b: Bytes, i: nat, n: nat)
    requires at + |b| <= |m| && i + n <= |m| && Apart(at, |b|, i, n)
    ensures Patch(m, at, b)[i..i + n] == m[i..i + n]
  {
  }

  lemma PatchHolds(m: Bytes, at: nat, b: Bytes)
    requires at + |b| <= |m|
    ensures Patch(m, at, b)[at..at + |b|] == b
  {
  }

  lemma SliceLeads(m: Bytes, at: nat, b: Bytes)
    requires at + |b| <= |m| && m[at..at + |b|] == b
    ensures m[at..] == b + m[at + |b|..]
  {
  }

  /** A block and a cell that are stored apart from a third range, which keeps its cell. */
  lemma StoresDeliver(m: Bytes, data: Bytes, block: nat, addr: nat, sizeAddr: nat)
    requires data != [] && 0 < block && InBounds(m, block, |data|) && InBounds(m, addr, 4) && InBounds(m, sizeAddr, 4)
    requires Int32At(m, sizeAddr) == |data|
    requires Apart(block, |data|, addr, 4) && Apart(block, |data|, sizeAddr, 4) && Apart(addr, 4, sizeAddr, 4)
    ensures Delivered(Patch(Patch(m, block, data), addr, Le32(block)), data, addr, sizeAddr)
  {
    hide Le32, Patch;
    var m1 := Patch(m, block, data);
    PatchSpares(m, block, data, sizeAddr, 4);
    PatchHolds(m, block, data);
    PatchSpares(m1, addr, Le32(block), sizeAddr, 4);
    PatchSpares(m1, addr, Le32(block), block, |data|);
    PatchedCell(m1, addr, block);
  }

  // ------------------------------------------------------------------------------------
  // get_buffer_bytes

  /** An int32_t sum. */
  function Add32(a: int, b: int): int {
    Wrap32(a + b)
  }

  function BufferOf(cur: Option<Source>, type_: int): Option<Bytes> {
    if cur.None? then None
    else if type_ == PROXY_BUFFER_TYPE_PLUGIN_CONFIGURATION then Some(cur.value.conf)
    else if type_ == PROXY_BUFFER_TYPE_HTTP_CALL_RESPONSE_BODY then cur.value.callBody
    else Some(cur.value.body)
  }

  predicate IsKnownBuffer(type_: int) {
    type_ == PROXY_BUFFER_TYPE_PLUGIN_CONFIGURATION || type_ == PROXY_BUFFER_TYPE_HTTP_REQUEST_BODY
    || type_ == PROXY_BUFFER_TYPE_HTTP_RESPONSE_BODY || type_ == PROXY_BUFFER_TYPE_HTTP_CALL_RESPONSE_BODY
  }

  /** The size that the host copies from `start` of a buffer of len bytes. */
  function ClampedSize(len: int, start: int, size: int): int {
    if Add32(start, size) > len then len - start else size
  }

  /** For a start inside the buffer and a positive size, the copy stays inside the buffer, and is
      all that the guest may have of it, exactly when the sum is an int32_t. */
  lemma ClampIsExactIff(len: int, start: int, size: int)
    requires 0 <= start < len < INT32_LIMIT && 0 < size < INT32_LIMIT
    ensures start + ClampedSize(len, start, size) <= len <==> start + size < INT32_LIMIT
    ensures ClampedSize(len, start, size) == (if start + size <= len then size else len - start)
       <==> start + size < INT32_LIMIT
  {
    if start + size < INT32_LIMIT {
      assert Add32(start, size) == start + size;
    } else {
      assert start + size + INT32_LIMIT - UINT32 < INT32_LIMIT;
      assert Add32(start, size) == start + size - UINT32;
    }
  }

  /** What of a buffer a guest is meant to get: the configuration as a whole, of the others the
      bytes from start that are there, at most size of them. */
  function Slice(type_: int, b: Bytes, start: int, size: int): Option<Bytes> {
    if type_ == PROXY_BUFFER_TYPE_PLUGIN_CONFIGURATION then Some(b)
    else if start < 0 || size <= 0 || start >= |b| then None
    else if |b| - start <= size then Some(b[start..])
    else Some(b[start..start + size])
  }

  /** How many bytes behind a buffer are read. */
  function Overrun(type_: int, b: Bytes, start: int, size: int): nat {
    if type_ == PROXY_BUFFER_TYPE_PLUGIN_CONFIGURATION || start < 0 || size <= 0 || start >= |b|
       || start + size < INT32_LIMIT
    then 0 else if start + size <= |b| then 0 else start + size - |b|
  }

  /** What of a buffer a guest gets: the slice, or, where the sum is no int32_t, all the rest of the
      buffer and what lies behind it in the memory of the host. */
  function Sent(type_: int, b: Bytes, start: int, size: int, behind: Bytes): Option<Bytes>
    requires |behind| >= Overrun(type_, b, start, size)
  {
    if Overrun(type_, b, start, size) > 0 then Some(b[start..] + behind[..Overrun(type_, b, start, size)])
    else Slice(type_, b, start, size)
  }

  /** A guest asks for a part of b: nothing of an empty buffer, an error for a part that is not there, and
      else, if it is OK, the bytes from start, at most size of them. Where the sum of the two is no
      int32_t, at least the bytes that are there lead what it gets. */
  ghost predicate Serves(b: Bytes, start: int, size: int, rc: int, m: Bytes, m': Bytes, addr: nat, sizeAddr: nat,
                         a: Allocators) {
    && (rc == 1 <==> b == [])
    && (rc == 2 <==> b != [] && (start < 0 || size <= 0 || start >= |b|))
    && rc != 12
    && (rc == 0 && start + size < 0x8000_0000 ==>
          Transferred(m, m', b[start..if start + size <= |b| then start + size else |b|], addr, sizeAddr, a))
    && (rc == 0 && start + size >= 0x8000_0000 ==>
          exists data :: b[start..] <= data && |data| == size && Transferred(m, m', data, addr, sizeAddr, a))
  }

  lemma SentServes(type_: int, b: Bytes, start: int, size: int, behind: Bytes, rc: int, m: Bytes, m': Bytes,
                   addr: nat, sizeAddr: nat, a: Allocators)
    requires type_ != PROXY_BUFFER_TYPE_PLUGIN_CONFIGURATION && b != [] && |b| < INT32_LIMIT
    requires 0 <= start < |b| && 0 < size && rc != 1 && rc != 2 && rc != 12
    requires |behind| >= Overrun(type_, b, start, size)
    requires rc == 0 ==>
               var s := Sent(type_, b, start, size, behind);
               s.Some? && Transferred(m, m', s.value, addr, sizeAddr, a)
    ensures Serves(b, start, size, rc, m, m', addr, sizeAddr, a)
  {
    hide Transferred;
    if start + size >= 0x8000_0000 {
      var data := Sent(type_, b, start, size, behind).value;
      assert data[..|b| - start] == b[start..];
      assert rc == 0 ==> Transferred(m, m', data, addr, sizeAddr, a);
    } else if start + size > |b| {
      assert b[start..] == b[start..|b|];
    }
  }

  // ------------------------------------------------------------------------------------
  // The virtual machine of a worker

  class Vm {
    var mems: map<PluginId, Bytes>
    var cur: PluginId

    constructor (mems: map<PluginId, Bytes>, cur: PluginId)
      requires cur in mems
      ensures this.mems == mems && this.cur == cur
    {
      this.mems := mems;
      this.cur := cur;
    }

    ghost predicate Valid()
      reads this
    {
      cur in mems
    }

    /** The memory that the host reaches. */
    function Memory(): Bytes
      requires Valid()
      reads this
    {
      mems[cur]
    }

    /** A call that names no plugin goes to the one that was called last. */
    method Call(plugin: Option<PluginId>, a: Reply) returns (rc: nat)
      requires Valid() && (plugin.Some? ==> plugin.value in mems)
      modifies this
      ensures Valid() && cur == (if plugin.Some? then plugin.value else old(cur))
      ensures mems == old(mems)[cur := MemoryAfter(old(mems)[cur], a)]
      ensures rc == ValueOf(a)
    {
      if plugin.Some? {
        cur := plugin.value;
      }
      if a.NotExported? {
        return 0;
      }
      mems := mems[cur := a.mem];
      return a.value;
    }

    /** The calls of a run, each of which may change the memory of its own plugin: the current plugin
        is the one of the last call that named one. */
    method Follow(calls: seq<Abi.Call>, replies: seq<Reply>)
      requires Valid() && |replies| == |calls| && forall c :: c in calls ==> c.plugin in mems
      modifies this
      ensures Valid() && mems.Keys == old(mems.Keys)
      ensures cur == if Abi.CurPlugin(calls).Some? then Abi.CurPlugin(calls).value else old(cur)
    {
      for i := 0 to |calls|
        invariant Valid() && mems.Keys == old(mems.Keys)
        invariant cur == if Abi.CurPlugin(calls[..i]).Some? then Abi.CurPlugin(calls[..i]).value else old(cur)
      {
        assert calls[..i + 1][..i] == calls[..i];
        assert calls[i] in calls && calls[i].plugin in mems.Keys;
        if Abi.NamesPlugin(calls[i]) {
          var _ := Call(Some(calls[i].plugin), replies[i]);
        }
      }
      assert calls[..|calls|] == calls;
    }

    method GetMemory(addr: nat, size: nat) returns (ok: bool)
      requires Valid()
      ensures ok == InBounds(Memory(), addr, size)
      ensures ok <==> addr + size < 0x8000_0000 && addr + size <= |Memory()|
    {
      ok := addr + size < INT32_LIMIT && addr + size <= |mems[cur]|;
    }

    method Store(at: nat, b: Bytes)
      requires Valid() && at + |b| <= |Memory()|
      modifies this
      ensures Valid() && cur == old(cur) && mems == old(mems)[cur := Patch(old(Memory()), at, b)]
    {
      mems := mems[cur := Patch(mems[cur], at, b)];
    }

    /** proxy_wasm_memory_alloc. */
    method MemoryAlloc(a: Allocators) returns (addr: nat)
      requires Valid()
      modifies this
      ensures Valid() && cur == old(cur)
      ensures addr == BlockAddr(a) && mems == old(mems)[cur := AfterAlloc(old(Memory()), a)]
      ensures a.first.Returned? && a.first.value != 0 ==> addr == a.first.value && Memory() == a.first.mem
      ensures a.first.NotExported? || a.first.value == 0 ==>
        var m := if a.first.Returned? then a.first.mem else old(Memory());
        match a.second
        case Returned(value, mem) => addr == value && Memory() == mem
        case NotExported => addr == 0 && Memory() == m
    {
      addr := Call(None, a.first);
      if addr == 0 {
        addr := Call(None, a.second);
      }
    }

    /** ngx_http_wasm_copy_to_wasm. On success the data is delivered, whatever the allocator did,
        as long as it leaves the size cell alone and the ranges do not overlap; apart from the two
        cells and the block, the host writes nothing, in no plugin. */
    method CopyToWasm(data: Bytes, addr: nat, sizeAddr: nat, a: Allocators) returns (rc: int)
      requires Valid() && |data| < INT32_LIMIT && BlockAddr(a) < INT32_LIMIT
      modifies this
      ensures Valid() && cur == old(cur)
        && forall p :: p in old(mems) && p != cur ==> p in mems && mems[p] == old(mems)[p]
      ensures data == [] ==>
        && (rc == PROXY_RESULT_OK <==> InBounds(old(Memory()), sizeAddr, 4))
        && (rc == PROXY_RESULT_OK ==>
              && Memory() == Patch(old(Memory()), sizeAddr, Le32(0))
              && Delivered(Memory(), data, addr, sizeAddr))
      ensures data != [] ==>
        && (rc == PROXY_RESULT_OK <==> Reachable(old(Memory()), |data|, addr, sizeAddr, a))
        && (rc == PROXY_RESULT_OK ==> Transferred(old(Memory()), Memory(), data, addr, sizeAddr, a))
        && (rc == PROXY_RESULT_INTERNAL_FAILURE <==> InBounds(old(Memory()), sizeAddr, 4) && BlockAddr(a) == 0)
      ensures rc != PROXY_RESULT_OK && rc != PROXY_RESULT_INTERNAL_FAILURE ==> rc == PROXY_RESULT_INVALID_MEMORY_ACCESS
      ensures !InBounds(old(Memory()), sizeAddr, 4) ==> mems == old(mems) && rc == 6
      ensures rc == 0 || rc == 6 || (rc == 10 && data != [] && BlockAddr(a) == 0)
      ensures rc != PROXY_RESULT_OK && InBounds(old(Memory()), sizeAddr, 4) ==>
        var m1 := Prepared(old(Memory()), |data|, sizeAddr, a);
        |Memory()| == |m1| && forall i :: 0 <= i < |m1| && !Within(i, BlockAddr(a), |data|) ==> Memory()[i] == m1[i]
    {
      hide Le32, Int32At;
      ghost var m := Memory();
      var ok := GetMemory(sizeAddr, 4);
      if !ok {
        return PROXY_RESULT_INVALID_MEMORY_ACCESS;
      }
      Store(sizeAddr, Le32(|data|));
      PatchedCell(m, sizeAddr, |data|);
      if |data| == 0 {
        return PROXY_RESULT_OK;
      }
      var block := MemoryAlloc(a);
      if block == 0 {
        return PROXY_RESULT_INTERNAL_FAILURE;
      }
      ghost var m1 := Memory();
      ok := GetMemory(block, |data|);
      if !ok {
        return PROXY_RESULT_INVALID_MEMORY_ACCESS;
      }
      Store(block, data);
      ok := GetMemory(addr, 4);
      if !ok {
        return PROXY_RESULT_INVALID_MEMORY_ACCESS;
      }
      Store(addr, Le32(block));
      if Disjoint(m1, |data|, addr, sizeAddr, block) {
        StoresDeliver(m1, data, block, addr, sizeAddr);
      }
      return PROXY_RESULT_OK;
    }

    /** ngx_http_wasm_get_buf_to_write: the block is handed out before it is filled. */
    method GetBufToWrite(len: nat, addr: nat, sizeAddr: nat, a: Allocators) returns (buf: Option<nat>)
      requires Valid() && len < INT32_LIMIT && BlockAddr(a) < INT32_LIMIT
      modifies this
      ensures Valid() && cur == old(cur)
        && forall p :: p in old(mems) && p != cur ==> p in mems && mems[p] == old(mems)[p]
      ensures var m1 := AfterAlloc(old(Memory()), a);
        && |Memory()| == |m1|
        && (buf.Some? <==>
              && BlockAddr(a) != 0 && InBounds(m1, BlockAddr(a), len) && InBounds(m1, addr, 4)
              && InBounds(m1, sizeAddr, 4))
        && (buf.Some? ==> buf.value == BlockAddr(a)
                          && Memory() == Patch(Patch(m1, addr, Le32(BlockAddr(a))), sizeAddr, Le32(len)))
        && (forall i :: 0 <= i < |m1| && !Within(i, addr, 4) && !Within(i, sizeAddr, 4) ==> Memory()[i] == m1[i])
    {
      hide Le32;
      var block := MemoryAlloc(a);
      if block == 0 {
        return None;
      }
      var ok := GetMemory(block, len);
      if !ok {
        return None;
      }
      ok := GetMemory(addr, 4);
      if !ok {
        return None;
      }
      Store(addr, Le32(block));
      ok := GetMemory(sizeAddr, 4);
      if !ok {
        return None;
      }
      Store(sizeAddr, Le32(len));
      return Some(block);
    }

    /** proxy_get_buffer_bytes. `behind` is what follows the buffer in the memory of the host. */
    method GetBufferBytes(src: Option<Source>, type_: int, start: int, size: int, addr: nat, sizeAddr: nat,
                          a: Allocators, behind: Bytes) returns (rc: int)
      requires Valid() && BlockAddr(a) < INT32_LIMIT && IsInt32(start) && IsInt32(size)
      requires BufferOf(src, type_).Some? ==> |BufferOf(src, type_).value| < INT32_LIMIT
      requires BufferOf(src, type_).Some? ==> |behind| >= Overrun(type_, BufferOf(src, type_).value, start, size)
      modifies this
      ensures Valid() && cur == old(cur)
        && forall p :: p in old(mems) && p != cur ==> p in mems && mems[p] == old(mems)[p]
      ensures !IsKnownBuffer(type_) ==> rc == PROXY_RESULT_UNIMPLEMENTED
      ensures IsKnownBuffer(type_) && type_ == PROXY_BUFFER_TYPE_HTTP_CALL_RESPONSE_BODY && !HasRequest(src) ==>
        rc == PROXY_RESULT_BAD_ARGUMENT
      ensures IsKnownBuffer(type_) && (type_ == PROXY_BUFFER_TYPE_HTTP_CALL_RESPONSE_BODY ==> HasRequest(src)) ==>
        var b := BufferOf(src, type_);
        if b.None? || b.value == [] then rc == PROXY_RESULT_NOT_FOUND
        else if Sent(type_, b.value, start, size, behind).None? then rc == PROXY_RESULT_BAD_ARGUMENT
        else
          var data := Sent(type_, b.value, start, size, behind).value;
          && (rc == PROXY_RESULT_OK <==> Reachable(old(Memory()), |data|, addr, sizeAddr, a))
          && (rc == PROXY_RESULT_OK ==> Transferred(old(Memory()), Memory(), data, addr, sizeAddr, a))
      ensures rc == PROXY_RESULT_UNIMPLEMENTED || rc == PROXY_RESULT_NOT_FOUND || rc == PROXY_RESULT_BAD_ARGUMENT ==>
        mems == old(mems)
      ensures type_ != 0 && type_ != 1 && type_ != 4 && type_ != 7 ==> rc == 12
      ensures (type_ == 0 || type_ == 1 || type_ == 7) && src.None? ==> rc == 1
      ensures (type_ == 0 || type_ == 1) && src.Some? ==>
        Serves(src.value.body, start, size, rc, old(Memory()), Memory(), addr, sizeAddr, a)
      ensures type_ == 4 && !(src.Some? && src.value.hasReq) ==> rc == 2
      ensures type_ == 4 && src.Some? && src.value.hasReq ==>
        if src.value.callBody.None? then rc == 1
        else Serves(src.value.callBody.value, start, size, rc, old(Memory()), Memory(), addr, sizeAddr, a)
      ensures type_ == 7 && src.Some? ==>
        && (src.value.conf == [] ==> rc == 1)
        && (src.value.conf != [] ==>
              && rc != 1 && rc != 2 && rc != 12
              && (rc == 0 ==> Transferred(old(Memory()), Memory(), src.value.conf, addr, sizeAddr, a)))
    {
      hide Transferred, Reachable, Delivered, Le32, Patch;
      if !IsKnownBuffer(type_) {
        return PROXY_RESULT_UNIMPLEMENTED;
      }
      if type_ == PROXY_BUFFER_TYPE_HTTP_CALL_RESPONSE_BODY && !(src.Some? && src.value.hasReq) {
        return PROXY_RESULT_BAD_ARGUMENT;
      }
      var buffer := BufferOf(src, type_);
      var data := if buffer.Some? then buffer.value else [];
      if |data| == 0 {
        return PROXY_RESULT_NOT_FOUND;
      }
      var first, len := 0, |data|;
      if type_ != PROXY_BUFFER_TYPE_PLUGIN_CONFIGURATION {
        if start < 0 || size <= 0 || start >= |data| {
          return PROXY_RESULT_BAD_ARGUMENT;
        }
        ClampIsExactIff(|data|, start, size);
        first, len := start, ClampedSize(|data|, start, size);
      }
      var host := data + behind;
      HostSlice(type_, data, start, size, behind, first, len);
      ghost var m := Memory();
      rc := CopyToWasm(host[first..first + len], addr, sizeAddr, a);
      if type_ != PROXY_BUFFER_TYPE_PLUGIN_CONFIGURATION {
        SentServes(type_, data, start, size, behind, rc, m, Memory(), addr, sizeAddr, a);
      }
    }
  }

  /** What is copied out of the memory of the host is what is to be sent. */
  lemma HostSlice(type_: int, b: Bytes, start: int, size: int, behind: Bytes, first: nat, len: nat)
    requires |b| < INT32_LIMIT
    requires |behind| >= Overrun(type_, b, start, size) && Sent(type_, b, start, size, behind).Some?
    requires var clamped := if start + size < INT32_LIMIT && start + size > |b| then |b| - start else size;
             if type_ == PROXY_BUFFER_TYPE_PLUGIN_CONFIGURATION then first == 0 && len == |b|
             else first == start && len == clamped
    ensures first + len <= |b| + |behind|
      && (b + behind)[first..first + len] == Sent(type_, b, start, size, behind).value
  {
    var host := b + behind;
    if Overrun(type_, b, start, size) > 0 {
      assert host[first..first + len] == host[first..|b|] + host[|b|..first + len];
      assert host[first..|b|] == b[start..] && host[|b|..first + len] == behind[..first + len - |b|];
    } else {
      assert host[first..first + len] == b[first..first + len];
    }
  }

  predicate HasRequest(src: Option<Source>) {
    src.Some? && src.value.hasReq
  }

  /** A map that is written into the block that get_buf_to_write has handed out reaches the guest:
      its two cells lead to a buffer of the right size that holds the list. */
  lemma MapReachesGuest(m: Bytes, ps: seq<Pair>, block: nat, addr: nat, sizeAddr: nat)
    requires Fits(ps) && 0 < block && InBounds(m, block, EncodedSize(ps)) && InBounds(m, addr, 4)
      && InBounds(m, sizeAddr, 4)
    requires Apart(block, EncodedSize(ps), addr, 4) && Apart(block, EncodedSize(ps), sizeAddr, 4)
      && Apart(addr, 4, sizeAddr, 4)
    ensures var m2 := Patch(Patch(m, addr, Le32(block)), sizeAddr, Le32(EncodedSize(ps)));
      Delivered(Patch(m2, block, Encode(ps)), Encode(ps), addr, sizeAddr)
    ensures var m2 := Patch(Patch(m, addr, Le32(block)), sizeAddr, Le32(EncodedSize(ps)));
      var m3 := Patch(m2, block, Encode(ps));
      0 <= Int32At(m3, addr) <= |m3| && Holds(m3[Int32At(m3, addr)..], ps)
  {
    hide Le32, Patch, Encode, Holds, EncodedSize, Apart, Int32At;
    var e := Encode(ps);
    var m3 := Patch(Patch(Patch(m, addr, Le32(block)), sizeAddr, Le32(|e|)), block, e);
    StoredApart(m, e, block, addr, sizeAddr);
    SliceLeads(m3, block, e);
    EncodedHolds(ps, m3[block + |e|..]);
  }

  /** A block stored after the two cells that describe it, apart from them. */
  lemma StoredApart(m: Bytes, e: Bytes, block: nat, addr: nat, sizeAddr: nat)
    requires |e| < INT32_LIMIT && block < INT32_LIMIT
    requires InBounds(m, block, |e|) && InBounds(m, addr, 4) && InBounds(m, sizeAddr, 4)
    requires Apart(block, |e|, addr, 4) && Apart(block, |e|, sizeAddr, 4) && Apart(addr, 4, sizeAddr, 4)
    ensures var m3 := Patch(Patch(Patch(m, addr, Le32(block)), sizeAddr, Le32(|e|)), block, e);
      && |m3| == |m| && m3[block..block + |e|] == e
      && Int32At(m3, addr) == block && Int32At(m3, sizeAddr) == |e|
  {
    hide Le32, Patch;
    var m1 := Patch(m, addr, Le32(block));
    var m2 := Patch(m1, sizeAddr, Le32(|e|));
    PatchedCell(m, addr, block);
    PatchSpares(m1, sizeAddr, Le32(|e|), addr, 4);
    PatchedCell(m1, sizeAddr, |e|);
    PatchSpares(m2, block, e, addr, 4);
    PatchSpares(m2, block, e, sizeAddr, 4);
    PatchHolds(m2, block, e);
  }

  /** The two ways of handing out a block store the cells in opposite orders, so they disagree on
      a guest that passes one cell for both: the address stays there, or the size. */
  lemma SharedCell(m: Bytes, at: nat, block: nat, len: nat)
    requires InBounds(m, at, 4) && block < INT32_LIMIT && len < INT32_LIMIT
    ensures Int32At(Patch(Patch(m, at, Le32(len)), at, Le32(block)), at) == block
    ensures Int32At(Patch(Patch(m, at, Le32(block)), at, Le32(len)), at) == len
  {
    hide Le32, Patch;
    PatchedCell(Patch(m, at, Le32(len)), at, block);
    PatchedCell(Patch(m, at, Le32(block)), at, len);
  }
}
