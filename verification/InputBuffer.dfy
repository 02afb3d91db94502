/**
 The input buffer of a serial pipeline filter (class input_buffer in src/tbb/parallel_pipeline.cpp):
 what it means, as a finite map from tokens to deferred items, and the power-of-two ring that stores it.
 */
module InputBuffer {
  import opened Wrappers
  import opened Arithmetic

  /** What task_info carries: the item, and its token once an ordered filter has assigned one. */
  datatype Info = Info(item: nat, token: nat, ready: bool)

  // ---------------------------------------------------------------- the buffer as a map

  datatype Buffer = Buffer(ordered: bool, low: nat, high: nat, deferred: map<nat, Info>)

  /**
   What try_put_token did: the new buffer, the stamped item, its position in the buffer, and whether it was deferred.
   */
  datatype Put = Put(buffer: Buffer, info: Info, token: nat, wait: bool)

  function TryPut(b: Buffer, info: Info): Put {
    var assign := !b.ordered || !info.ready;
    var token := if assign then b.high else info.token;
    var info' := if b.ordered && assign then info.(token := token, ready := true) else info;
    var b' := if assign then b.(high := b.high + 1) else b;
    if token != b.low then Put(b'.(deferred := b.deferred[token := info']), info', token, true)
    else Put(b', info', token, false)
  }

  /** Advancing low_token hands out the next item if it was deferred. */
  function Advanced(b: Buffer): (Buffer, Option<Info>) {
    var next := b.low + 1;
    (b.(low := next, deferred := b.deferred - {next}),
     if next in b.deferred then Some(b.deferred[next]) else None)
  }

  // ---------------------------------------------------------------- index arithmetic

  /** Bitwise and of non-negative integers. */
  function And(a: nat, b: nat): nat
    decreases a
  {
    if a == 0 || b == 0 then 0 else (a % 2) * (b % 2) + 2 * And(a / 2, b / 2)
  }

  predicate PowerOfTwo(n: nat)
  {
    n == 1 || (n > 1 && n % 2 == 0 && PowerOfTwo(n / 2))
  }

  /** Masking with size-1 is the remainder modulo size. */
  lemma {:induction false} MaskIsRemainder(t: nat, size: nat)
    requires PowerOfTwo(size)
    ensures And(t, size - 1) == t % size
    decreases size
  {
    if size == 1 {
      assert And(t, 0) == 0;
    } else {
      var half := size / 2;
      MaskIsRemainder(t / 2, half);
      assert (size - 1) / 2 == half - 1 && (size - 1) % 2 == 1;
      assert t % size == t % 2 + 2 * (t / 2 % half) by { HalvedRemainder(t, half); }
      if t == 0 {
      } else {
        assert And(t, size - 1) == t % 2 + 2 * And(t / 2, half - 1);
      }
    }
  }

  lemma HalvedRemainder(t: nat, half: nat)
    requires half > 0
    ensures t % (2 * half) == t % 2 + 2 * (t / 2 % half)
  {
    var q, r := t / 2 / half, t / 2 % half;
    assert t == 2 * (q * half + r) + t % 2;
    assert t == (2 * half) * q + (2 * r + t % 2);
    Quotient(t, 2 * half, q, 2 * r + t % 2);
  }

  /** Two tokens of one window of length size never share a cell. */
  lemma NoSharedCell(t: nat, u: nat, size: nat)
    requires size > 0 && t < u < t + size
    ensures t % size != u % size
  {
    var q, r := t / size, t % size;
    if r + (u - t) < size {
      Quotient(u, size, q, r + (u - t));
    } else {
      assert size * (q + 1) == size * q + size;
      Quotient(u, size, q + 1, r + (u - t) - size);
    }
  }

  lemma NextLap(t: nat, size: nat)
    requires size > 0
    ensures (t + size) % size == t % size
  {
    assert size * (t / size + 1) == size * (t / size) + size;
    Quotient(t + size, size, t / size + 1, t % size);
  }

  lemma DoublingKeeps(n: nat)
    requires PowerOfTwo(n)
    ensures PowerOfTwo(2 * n)
  {
  }

  // ---------------------------------------------------------------- the ring

  datatype Cell = Cell(info: Info, valid: bool)

  const EMPTY_CELL := Cell(Info(0, 0, false), false)
  const INITIAL_BUFFER_SIZE: nat := 4

  /** What a ring holds for the window that starts at low. */
  ghost function Window(cells: seq<Cell>, low: nat): map<nat, Info>
    requires |cells| > 0
  {
    map t | low < t < low + |cells| && cells[t % |cells|].valid :: cells[t % |cells|].info
  }

  class Ring {
    var cells: array<Cell>   // its length is array_size
    var low: nat             // low_token
    var high: nat            // high_token
    const ordered: bool      // is_ordered

    ghost predicate Valid()
      reads this, cells
    {
      && PowerOfTwo(cells.Length)
      && !cells[low % cells.Length].valid
    }

    ghost function Contents(): Buffer
      requires Valid()
      reads this, cells
    {
      Buffer(ordered, low, high, Window(cells[..], low))
    }

    constructor (ordered: bool)
      ensures Valid() && Contents() == Buffer(ordered, 0, 0, map[])
    {
      this.ordered := ordered;
      cells := new Cell[INITIAL_BUFFER_SIZE](_ => EMPTY_CELL);
      low, high := 0, 0;
      new;
      assert PowerOfTwo(2);
    }

    /** Resizes the ring to a power of two that is at least minimumSize. */
    method Grow(minimumSize: nat)
      requires Valid()
      modifies this`cells
      ensures Valid() && Contents() == old(Contents())
      ensures cells.Length >= minimumSize && cells.Length >= 2 * old(cells.Length) && fresh(cells)
    {
      var oldSize, source := cells.Length, cells;
      var newSize := 2 * oldSize;
      DoublingKeeps(oldSize);
      while newSize < minimumSize
        invariant newSize >= 2 * oldSize && PowerOfTwo(newSize)
        decreases minimumSize - newSize
      {
        DoublingKeeps(newSize);
        newSize := newSize * 2;
      }
      var target := new Cell[newSize](_ => EMPTY_CELL);
      for i := 0 to oldSize
        invariant forall t :: low <= t < low + i ==> target[t % newSize] == source[t % oldSize]
        invariant forall t :: low + i <= t < low + newSize ==> !target[t % newSize].valid
        invariant fresh(target) && source[..] == old(cells[..])
      {
        var t := low + i;
        MaskIsRemainder(t, newSize);
        MaskIsRemainder(t, oldSize);
        forall u | low <= u < low + newSize && u != t
          ensures u % newSize != t % newSize
        {
          if u < t { NoSharedCell(u, t, newSize); } else { NoSharedCell(t, u, newSize); }
        }
        target[And(t, newSize - 1)] := source[And(t, oldSize - 1)];
      }
      SameWindow(source[..], target[..], low);
      cells := target;
    }

    /** Puts a token into the buffer; the result says whether the item must wait. */
    method TryPutToken(info: Info) returns (info': Info, wait: bool)
      requires Valid()
      requires low <= if !ordered || !info.ready then high else info.token
      modifies this, cells
      ensures Valid()
      ensures var p := TryPut(old(Contents()), info); Contents() == p.buffer && info' == p.info && wait == p.wait
    {
      info' := info;
      var token;
      if ordered {
        if !info.ready {
          info' := info.(token := high, ready := true);
          high := high + 1;
        }
        token := info'.token;
      } else {
        token := high;
        high := high + 1;
      }
      if token == low {
        return info', false;
      }
      Defer(token, info');
      wait := true;
    }

    /** Stores an item that must wait, after making room for its token. */
    method Defer(token: nat, info: Info)
      requires Valid() && low < token
      modifies this`cells, cells
      ensures Valid() && Contents() == old(Contents()).(deferred := old(Contents()).deferred[token := info])
    {
      if token - low >= cells.Length {
        Grow(token - low + 1);
      }
      MaskIsRemainder(token, cells.Length);
      NoSharedCell(low, token, cells.Length);
      Inserted(cells[..], low, token, info);
      ghost var before := cells[..];
      cells[And(token, cells.Length - 1)] := Cell(info, true);
      assert cells[..] == before[token % cells.Length := Cell(info, true)];
    }

    /** The locked part of try_to_spawn_task_for_next_token. */
    method Advance() returns (wakee: Cell)
      requires Valid()
      modifies this, cells
      ensures Valid()
      ensures var a := Advanced(old(Contents()));
              Contents() == a.0 && wakee.valid == a.1.Some? && (wakee.valid ==> wakee.info == a.1.value)
    {
      low := low + 1;
      var i := And(low, cells.Length - 1);
      MaskIsRemainder(low, cells.Length);
      wakee := cells[i];
      Removed(cells[..], low);
      cells[i] := wakee.(valid := false);
    }
  }

  /** Copying every cell of the old window keeps the map. */
  lemma SameWindow(a: seq<Cell>, b: seq<Cell>, low: nat)
    requires 0 < |a| <= |b|
    requires forall t :: low <= t < low + |a| ==> b[t % |b|] == a[t % |a|]
    requires forall t :: low + |a| <= t < low + |b| ==> !b[t % |b|].valid
    ensures Window(a, low) == Window(b, low)
  {
  }

  /** Storing into the cell of a token beyond low is map insertion. */
  lemma Inserted(a: seq<Cell>, low: nat, token: nat, info: Info)
    requires |a| > 0 && low < token < low + |a|
    ensures Window(a[token % |a| := Cell(info, true)], low) == Window(a, low)[token := info]
  {
    forall u | low < u < low + |a| && u != token
      ensures u % |a| != token % |a|
    {
      if u < token { NoSharedCell(u, token, |a|); } else { NoSharedCell(token, u, |a|); }
    }
  }

  lemma RemovedAt(a: seq<Cell>, low: nat, t: nat)
    requires |a| > 0 && low > 0 && !a[(low - 1) % |a|].valid
    ensures var w, w' := Window(a, low - 1), Window(a[low % |a| := a[low % |a|].(valid := false)], low);
      (t in w' <==> t in w && t != low) && (t in w' ==> w'[t] == w[t])
  {
    if low < t < low + |a| {
      NoSharedCell(low, t, |a|);
      if t == low + |a| - 1 {
        NextLap(low - 1, |a|);
      }
    }
  }

  /** Clearing the cell of the new low token is removal of that token. */
  lemma Removed(a: seq<Cell>, low: nat)
    requires |a| > 0 && low > 0 && !a[(low - 1) % |a|].valid
    ensures var c := a[low % |a|];
            && Window(a[low % |a| := c.(valid := false)], low) == Window(a, low - 1) - {low}
            && (c.valid <==> |a| > 1 && low in Window(a, low - 1))
  {
    var w, w' := Window(a, low - 1), Window(a[low % |a| := a[low % |a|].(valid := false)], low);
    forall t
      ensures (t in w' <==> t in w && t != low) && (t in w' ==> w'[t] == w[t])
    {
      if t in w || t in w' {
        RemovedAt(a, low, t);
      }
    }
    if |a| == 1 {
      Quotient(low, 1, low, 0);
      Quotient(low - 1, 1, low - 1, 0);
    }
  }
}
