/** The masking, size-limited job log (helpers/trace/buffer.go). */
module TraceBuffer {
  import opened Base
  import opened Decimal

  /** A rune, as the bytes that WriteRune appends for it: at most utf8.UTFMax of
      them.  Nothing else about the encoding matters here. */
  type Rune = s: Bytes | 1 <= |s| <= 4 witness [0]

  function Encode(rs: seq<Rune>): Bytes {
    if rs == [] then [] else Encode(rs[..|rs| - 1]) + rs[|rs| - 1]
  }

  // ----- Constants -----

  /** "[MASKED]" */
  const MASKED_TEXT: Bytes := [91, 77, 65, 83, 75, 69, 68, 93]

  const DEFAULT_BYTES_LIMIT: int := 4 * 1024 * 1024

  /** A line break, bold red. */
  const MESSAGE_COLOUR: Bytes := [10, 27, 91, 51, 49, 59, 49, 109]

  /** "Job's log exceeded limit of " */
  const MESSAGE_HEAD: Bytes :=
    [74, 111, 98, 39, 115, 32, 108, 111, 103, 32, 101, 120, 99, 101, 101, 100, 101, 100, 32,
     108, 105, 109, 105, 116, 32, 111, 102, 32]

  /** " bytes.", colour reset, a line break. */
  const MESSAGE_TAIL: Bytes :=
    [32, 98, 121, 116, 101, 115, 46, 27, 91, 48, 59, 109, 10]

  /** ASCII text. */
  function Ascii(text: string): Bytes
    requires forall i :: 0 <= i < |text| ==> text[i] < 128 as char
  {
    seq(|text|, i requires 0 <= i < |text| => text[i] as byte)
  }

  lemma MaskedTextIs()
    ensures MASKED_TEXT == Ascii("[MASKED]")
  {
  }

  lemma MessageColourIs()
    ensures MESSAGE_COLOUR == [10, 27] + Ascii("[31;1m")
  {
  }

  lemma MessageHeadIs()
    ensures MESSAGE_HEAD == Ascii("Job's log exceeded limit of ")
  {
  }

  lemma MessageTailIs()
    ensures MESSAGE_TAIL == Ascii(" bytes.") + [27] + Ascii("[0;m") + [10]
  {
  }

  function LimitMessage(limit: int): Bytes {
    MESSAGE_COLOUR + MESSAGE_HEAD + Itoa(limit) + MESSAGE_TAIL
  }

  // ----- The log as a value -----

  /** No tree at all, or the tree's keys. */
  datatype Mask = NoMask | Keys(keys: set<Bytes>)

  /** SetMasked: the trie stores nothing for an empty value. */
  function MaskOf(values: seq<Bytes>): Mask {
    if values == [] then NoMask else Keys(set v | v in values && v != [])
  }

  /** The trie's Search: the stored keys that start with `rest`. */
  function Search(keys: set<Bytes>, rest: Bytes): set<Bytes> {
    set k | k in keys && rest <= k
  }

  /** The buffer's bytes, cut at logMaskedSize: what is published, which Bytes()
      returns, and what is held back.  `notice` is the message that announces this
      limit. */
  datatype Log = Log(published: Bytes, tail: Bytes, mask: Mask, limit: int, notice: Bytes) {
    function Size(): nat {
      |published| + |tail|
    }

    function AdvanceAll(): Log {
      this.(published := published + tail, tail := [])
    }

    function Advance(): Log {
      if mask.NoMask? then
        AdvanceAll()
      else
        var results := Search(mask.keys, tail);
        if results == {} then
          AdvanceAll()
        else if results == {tail} then
          this.(published := published + MASKED_TEXT, tail := [])
        else
          this
    }

    function WriteRune(r: Rune): (Log, bool) {
      var l := this.(tail := tail + r).Advance();
      if l.Size() < limit then (l, false) else (l.(tail := l.tail + notice), true)
    }
  }

  /** The log and the `stopped` flag of the reading loop. */
  datatype Reader = Reader(log: Log, stopped: bool)

  /** What reaches the buffer, in order. */
  datatype Input = Char(r: Rune) | Invalid | SetMasked(values: seq<Bytes>)

  function Step(p: Reader, i: Input): (q: Reader)
    ensures q.log.limit == p.log.limit && q.log.notice == p.log.notice
  {
    match i
    case SetMasked(values) => p.(log := p.log.(mask := MaskOf(values)))
    case Invalid => p
    case Char(r) =>
      if p.stopped then p
      else
        var (l, eof) := p.log.WriteRune(r);
        Reader(l, eof)
  }

  function Fresh(limit: int): Reader {
    Reader(Log([], [], NoMask, limit, LimitMessage(limit)), false)
  }

  function Run(p: Reader, inputs: seq<Input>): (q: Reader)
    ensures q.log.limit == p.log.limit && q.log.notice == p.log.notice
  {
    if inputs == [] then p else Step(Run(p, inputs[..|inputs| - 1]), inputs[|inputs| - 1])
  }

  /** The log once the writer is closed. */
  function Closed(p: Reader): Log {
    p.log.AdvanceAll()
  }

  // ----- Published bytes are final -----

  /** Whatever is written or configured later, and when the buffer is closed,
      the bytes already handed out stay in front, unaltered. */
  lemma {:induction false} PublishedIsFinal(p: Reader, inputs: seq<Input>)
    ensures p.log.published <= Run(p, inputs).log.published <= Closed(Run(p, inputs)).published
  {
    if inputs != [] {
      PublishedIsFinal(p, inputs[..|inputs| - 1]);
    }
  }

  // ----- The log is the image of the only token split of the input -----

  /** The text read since the last published byte keeps the buffer waiting: some
      masked value starts with it, and it is not the only match itself. */
  predicate Pending(mask: Mask, rest: Bytes) {
    mask.Keys? && Search(mask.keys, rest) != {} && Search(mask.keys, rest) != {rest}
  }

  /** All non-empty prefixes keep the buffer waiting. */
  ghost predicate Waiting(mask: Mask, rs: seq<Rune>) {
    forall k :: 0 < k <= |rs| ==> PendingAt(mask, rs, k)
  }

  predicate PendingAt(mask: Mask, rs: seq<Rune>, k: nat)
    requires k <= |rs|
  {
    Pending(mask, Encode(rs[..k]))
  }

  /** A rune as it was read, with the mask in force then. */
  datatype Read = Read(r: Rune, mask: Mask)

  /** Runes read under one mask. */
  function Under(mask: Mask, rs: seq<Rune>): (xs: seq<Read>)
    ensures |xs| == |rs|
    ensures forall i :: 0 <= i < |rs| ==> xs[i] == Read(rs[i], mask)
  {
    seq(|rs|, i requires 0 <= i < |rs| => Read(rs[i], mask))
  }

  datatype Token = Token(mask: Mask, runes: seq<Rune>) {
    /** The shortest text that stops keeping the buffer waiting. */
    ghost predicate Complete() {
      && runes != []
      && Waiting(mask, runes[..|runes| - 1])
      && !Pending(mask, Encode(runes))
    }

    function Reads(): seq<Read> {
      Under(mask, runes)
    }

    /** A masked value is hidden, any other text is kept. */
    function Image(): Bytes {
      if mask.Keys? && Encode(runes) in mask.keys then MASKED_TEXT else Encode(runes)
    }
  }

  function Reads(ts: seq<Token>): seq<Read> {
    if ts == [] then [] else ts[0].Reads() + Reads(ts[1..])
  }

  function Images(ts: seq<Token>): Bytes {
    if ts == [] then [] else Images(ts[..|ts| - 1]) + ts[|ts| - 1].Image()
  }

  /** A split of what was read: complete tokens, each read under its own mask, and
      then a tail that keeps the buffer waiting under its mask. */
  ghost predicate SplitOf(input: seq<Read>, ts: seq<Token>, tail: seq<Rune>, tm: Mask) {
    && input == Reads(ts) + Under(tm, tail)
    && Waiting(tm, tail)
    && forall i :: 0 <= i < |ts| ==> ts[i].Complete()
  }

  /** What was written, all that is read until the limit stops the reader, with the
      masks it was written under. */
  function Consumed(p: Reader, inputs: seq<Input>): seq<Read>
  {
    if inputs == [] then []
    else
      var before := inputs[..|inputs| - 1];
      var last := inputs[|inputs| - 1];
      var q := Run(p, before);
      if last.Char? && !q.stopped then Consumed(p, before) + [Read(last.r, q.log.mask)]
      else Consumed(p, before)
  }

  /** The mask in force after some inputs, by the last SetMasked among them. */
  function MaskAfter(mask: Mask, inputs: seq<Input>): Mask {
    if inputs == [] then mask
    else
      var last := inputs[|inputs| - 1];
      if last.SetMasked? then MaskOf(last.values) else MaskAfter(mask, inputs[..|inputs| - 1])
  }

  /** Everything that is read, with the masks in force, by the inputs alone. */
  function Given(mask: Mask, inputs: seq<Input>): seq<Read> {
    if inputs == [] then []
    else
      var before := inputs[..|inputs| - 1];
      var last := inputs[|inputs| - 1];
      Given(mask, before) + if last.Char? then [Read(last.r, MaskAfter(mask, before))] else []
  }

  /** SetMasked is called only while nothing is pending. */
  ghost predicate Calm(p: Reader, inputs: seq<Input>)
  {
    forall i :: 0 <= i < |inputs| && inputs[i].SetMasked? ==>
      var q := Run(p, inputs[..i]);
      q.stopped || q.log.tail == []
  }

  /** Behind what was published before, the log is exactly the images of the tokens of a
      split of what was read, and its waiting tail, with the limit message after it once
      the limit is reached. */
  ghost predicate Explains(base: Bytes, p: Reader, ts: seq<Token>, tail: seq<Rune>, tm: Mask, input: seq<Read>)
  {
    && SplitOf(input, ts, tail, tm)
    && p.log.published == base + Images(ts)
    && p.log.tail == (if p.stopped then Encode(tail) + p.log.notice else Encode(tail))
    && (!p.stopped ==> tm == p.log.mask)
  }

  /** Writing a rune is advancing over it, and then perhaps the limit message. */
  lemma WriteIsAdvance(p: Reader, r: Rune)
    requires !p.stopped
    ensures var q := Step(p, Char(r));
            var a := p.log.(tail := p.log.tail + r).Advance();
            && q.log.mask == p.log.mask && q.log.published == a.published
            && q.log.tail == if q.stopped then a.tail + p.log.notice else a.tail
  {
  }

  lemma WaitingExtends(mask: Mask, tail: seq<Rune>, r: Rune)
    requires Waiting(mask, tail) && Pending(mask, Encode(tail + [r]))
    ensures Waiting(mask, tail + [r])
  {
    var text := tail + [r];
    forall k | 0 < k <= |text|
      ensures PendingAt(mask, text, k)
    {
      assert text[..k] == if k < |text| then tail[..k] else text;
      assert k < |text| ==> PendingAt(mask, tail, k);
    }
  }

  lemma {:induction false} ReadsAppend(ts: seq<Token>, t: Token)
    ensures Reads(ts + [t]) == Reads(ts) + t.Reads()
  {
    if ts == [] {
      assert ts + [t] == [t];
      assert Reads([t]) == t.Reads() + Reads([]);
    } else {
      assert (ts + [t])[1..] == ts[1..] + [t];
      ReadsAppend(ts[1..], t);
    }
  }

  lemma ImagesAppend(base: Bytes, ts: seq<Token>, t: Token)
    ensures base + Images(ts + [t]) == base + Images(ts) + t.Image()
  {
    assert (ts + [t])[..|ts|] == ts;
    assert base + (Images(ts) + t.Image()) == base + Images(ts) + t.Image();
  }

  lemma EncodeAppend(tail: seq<Rune>, r: Rune)
    ensures Encode(tail + [r]) == Encode(tail) + r
  {
    assert (tail + [r])[..|tail|] == tail;
  }

  lemma UnderAppend(mask: Mask, tail: seq<Rune>, r: Rune)
    ensures Under(mask, tail + [r]) == Under(mask, tail) + [Read(r, mask)]
  {
  }

  /** A split goes on with a rune that keeps the buffer waiting. */
  lemma SplitWaits(input: seq<Read>, ts: seq<Token>, tail: seq<Rune>, tm: Mask, r: Rune)
    requires SplitOf(input, ts, tail, tm) && Pending(tm, Encode(tail + [r]))
    ensures SplitOf(input + [Read(r, tm)], ts, tail + [r], tm)
  {
    WaitingExtends(tm, tail, r);
    UnderAppend(tm, tail, r);
    assert input + [Read(r, tm)] == Reads(ts) + Under(tm, tail + [r]);
  }

  /** A split goes on with a rune that completes a token. */
  lemma SplitCompletes(input: seq<Read>, ts: seq<Token>, tail: seq<Rune>, tm: Mask, r: Rune)
    requires SplitOf(input, ts, tail, tm) && !Pending(tm, Encode(tail + [r]))
    ensures SplitOf(input + [Read(r, tm)], ts + [Token(tm, tail + [r])], [], tm)
  {
    var t := Token(tm, tail + [r]);
    assert t.runes[..|tail|] == tail;
    ReadsAppend(ts, t);
    UnderAppend(tm, tail, r);
    assert input + [Read(r, tm)] == Reads(ts + [t]) + Under(tm, []);
  }

  /** What a rune leaves when it keeps the buffer waiting. */
  lemma TailWritten(p: Reader, r: Rune, tail: seq<Rune>)
    requires !p.stopped && p.log.tail == Encode(tail) && Pending(p.log.mask, Encode(tail + [r]))
    ensures var q := Step(p, Char(r));
            && q.log.mask == p.log.mask && q.log.published == p.log.published
            && q.log.tail == if q.stopped then Encode(tail + [r]) + q.log.notice else Encode(tail + [r])
  {
    EncodeAppend(tail, r);
    WriteIsAdvance(p, r);
  }

  /** What a rune leaves when it completes a token. */
  lemma TokenWritten(p: Reader, r: Rune, t: Token, tail: seq<Rune>)
    requires !p.stopped && p.log.tail == Encode(tail) && t == Token(p.log.mask, tail + [r])
    requires !Pending(t.mask, Encode(t.runes))
    ensures var q := Step(p, Char(r));
            && q.log.mask == p.log.mask && q.log.published == p.log.published + t.Image()
            && q.log.tail == if q.stopped then q.log.notice else []
  {
    EncodeAppend(tail, r);
    AdvanceImage(p.log.(tail := p.log.tail + r), t);
    WriteIsAdvance(p, r);
  }

  lemma WriteExtendsTail(base: Bytes, p: Reader, r: Rune, ts: seq<Token>, tail: seq<Rune>, input: seq<Read>)
    requires !p.stopped && Explains(base, p, ts, tail, p.log.mask, input)
    requires Pending(p.log.mask, Encode(tail + [r]))
    ensures Explains(base, Step(p, Char(r)), ts, tail + [r], p.log.mask, input + [Read(r, p.log.mask)])
  {
    SplitWaits(input, ts, tail, p.log.mask, r);
    TailWritten(p, r, tail);
  }

  lemma WriteEndsToken(base: Bytes, p: Reader, r: Rune, ts: seq<Token>, tail: seq<Rune>, input: seq<Read>)
    requires !p.stopped && Explains(base, p, ts, tail, p.log.mask, input)
    requires !Pending(p.log.mask, Encode(tail + [r]))
    ensures Explains(base, Step(p, Char(r)), ts + [Token(p.log.mask, tail + [r])], [], p.log.mask,
                     input + [Read(r, p.log.mask)])
  {
    var t := Token(p.log.mask, tail + [r]);
    SplitCompletes(input, ts, tail, p.log.mask, r);
    ImagesAppend(base, ts, t);
    TokenWritten(p, r, t, tail);
    EncodeNothing(p.log.notice);
  }

  lemma EncodeNothing(text: Bytes)
    ensures Encode([]) == [] && Encode([]) + text == text
  {
  }

  lemma WriteExplained(base: Bytes, p: Reader, r: Rune, ts: seq<Token>, tail: seq<Rune>, input: seq<Read>)
      returns (ts': seq<Token>, tail': seq<Rune>)
    requires !p.stopped && Explains(base, p, ts, tail, p.log.mask, input)
    ensures Explains(base, Step(p, Char(r)), ts', tail', p.log.mask, input + [Read(r, p.log.mask)])
  {
    if Pending(p.log.mask, Encode(tail + [r])) {
      ts', tail' := ts, tail + [r];
      WriteExtendsTail(base, p, r, ts, tail, input);
    } else {
      ts', tail' := ts + [Token(p.log.mask, tail + [r])], [];
      WriteEndsToken(base, p, r, ts, tail, input);
    }
  }

  /** Advancing past a complete token publishes its image. */
  lemma AdvanceImage(l: Log, t: Token)
    requires l.tail == Encode(t.runes) && l.mask == t.mask
    requires !Pending(t.mask, Encode(t.runes))
    ensures l.Advance() == l.(published := l.published + t.Image(), tail := [])
  {
    var rest := Encode(t.runes);
    if l.mask.Keys? {
      assert rest in l.mask.keys <==> rest in Search(l.mask.keys, rest);
    }
  }

  /** A new mask while nothing is pending, or after the end. */
  lemma MaskExplained(base: Bytes, p: Reader, values: seq<Bytes>, ts: seq<Token>, tail: seq<Rune>, tm: Mask,
                      input: seq<Read>)
      returns (tm': Mask)
    requires Explains(base, p, ts, tail, tm, input) && (p.stopped || p.log.tail == [])
    ensures Explains(base, Step(p, SetMasked(values)), ts, tail, tm', input)
  {
    tm' := if p.stopped then tm else MaskOf(values);
    EncodeEmpty(tail);
    assert tail == [] ==> Under(tm', tail) == Under(tm, tail);
  }

  lemma CalmBefore(p: Reader, inputs: seq<Input>)
    requires inputs != [] && Calm(p, inputs)
    ensures Calm(p, inputs[..|inputs| - 1])
    ensures inputs[|inputs| - 1].SetMasked? ==>
              var q := Run(p, inputs[..|inputs| - 1]); q.stopped || q.log.tail == []
  {
    var before := inputs[..|inputs| - 1];
    forall i | 0 <= i < |before| && before[i].SetMasked?
      ensures var q := Run(p, before[..i]); q.stopped || q.log.tail == []
    {
      assert before[..i] == inputs[..i] && inputs[i].SetMasked?;
    }
  }

  /** A reader that has not reached the limit and holds nothing back. */
  predicate Clear(p: Reader) {
    !p.stopped && p.log.tail == []
  }

  lemma NothingExplained(p: Reader)
    requires Clear(p)
    ensures Explains(p.log.published, p, [], [], p.log.mask, [])
  {
    assert p.log.published + Images([]) == p.log.published;
  }

  /** For every input, while masks change only when nothing is pending, the log is
      the image of a split of what was read into complete tokens, each of them under
      the mask that was in force when its runes were read. */
  lemma {:induction false} LogIsTokenImage(p: Reader, inputs: seq<Input>)
      returns (ts: seq<Token>, tail: seq<Rune>, tm: Mask)
    requires Clear(p) && Calm(p, inputs)
    ensures Explains(p.log.published, Run(p, inputs), ts, tail, tm, Consumed(p, inputs))
  {
    if inputs == [] {
      ts, tail, tm := [], [], p.log.mask;
      NothingExplained(p);
    } else {
      var before, last := inputs[..|inputs| - 1], inputs[|inputs| - 1];
      CalmBefore(p, inputs);
      ts, tail, tm := LogIsTokenImage(p, before);
      var q := Run(p, before);
      if last.Char? && !q.stopped {
        ts, tail := WriteExplained(p.log.published, q, last.r, ts, tail, Consumed(p, before));
      } else if last.SetMasked? {
        tm := MaskExplained(p.log.published, q, last.values, ts, tail, tm, Consumed(p, before));
      }
    }
  }

  lemma EncodeEmpty(rs: seq<Rune>)
    ensures Encode(rs) == [] <==> rs == []
  {
  }

  /** Until the limit is reached nothing is lost: everything read is written, under
      the mask that the inputs put in force. */
  lemma {:induction false} NothingLost(p: Reader, inputs: seq<Input>)
    ensures Run(p, inputs).log.mask == MaskAfter(p.log.mask, inputs)
    ensures p.stopped ==> Run(p, inputs).stopped
    ensures !Run(p, inputs).stopped ==> Consumed(p, inputs) == Given(p.log.mask, inputs)
    ensures Consumed(p, inputs) <= Given(p.log.mask, inputs)
  {
    if inputs != [] {
      NothingLost(p, inputs[..|inputs| - 1]);
    }
  }

  /** A proper prefix of waiting or complete text keeps the buffer waiting. */
  lemma PrefixWaits(mask: Mask, a: seq<Rune>, b: seq<Rune>)
    requires a != [] && a <= b
    requires Waiting(mask, b) || (b != [] && Waiting(mask, b[..|b| - 1]))
    ensures a == b || Pending(mask, Encode(a))
  {
    assert b[..|a|] == a;
    if Waiting(mask, b) {
      assert PendingAt(mask, b, |a|);
    } else if |a| < |b| {
      assert b[..|b| - 1][..|a|] == a;
      assert PendingAt(mask, b[..|b| - 1], |a|);
    }
  }

  /** Runes that are read as the beginning of others, under one mask. */
  lemma UnderPrefix(m: Mask, a: seq<Rune>, n: Mask, b: seq<Rune>)
    requires Under(m, a) <= Under(n, b) && a != []
    ensures m == n && a <= b
  {
    assert Under(m, a)[0] == Under(n, b)[0];
    forall i | 0 <= i < |a|
      ensures a[i] == b[i]
    {
      assert Under(m, a)[i] == Under(n, b)[i];
    }
  }

  /** The first tokens of two splits agree. */
  lemma SameFirstToken(input: seq<Read>, t1: Token, t2: Token)
    requires t1.Complete() && t2.Complete()
    requires t1.Reads() <= input && t2.Reads() <= input
    ensures t1 == t2
  {
    if |t1.runes| <= |t2.runes| {
      assert t1.Reads() <= t2.Reads();
      UnderPrefix(t1.mask, t1.runes, t2.mask, t2.runes);
      PrefixWaits(t1.mask, t1.runes, t2.runes);
    } else {
      assert t2.Reads() <= t1.Reads();
      UnderPrefix(t2.mask, t2.runes, t1.mask, t1.runes);
      PrefixWaits(t2.mask, t2.runes, t1.runes);
    }
  }

  lemma SplitTail(input: seq<Read>, ts: seq<Token>, tail: seq<Rune>, tm: Mask)
    requires SplitOf(input, ts, tail, tm) && ts != []
    ensures ts[0].Reads() <= input && ts[0].Complete()
    ensures SplitOf(input[|ts[0].runes|..], ts[1..], tail, tm)
    ensures ts == [ts[0]] + ts[1..]
  {
    assert input == ts[0].Reads() + (Reads(ts[1..]) + Under(tm, tail));
  }

  /** The split of what was read is unique, whatever masks it was read under, so the
      log is determined. */
  lemma {:induction false} SplitUnique(input: seq<Read>, ts1: seq<Token>, tail1: seq<Rune>, tm1: Mask,
                                       ts2: seq<Token>, tail2: seq<Rune>, tm2: Mask)
    requires SplitOf(input, ts1, tail1, tm1) && SplitOf(input, ts2, tail2, tm2)
    ensures ts1 == ts2 && tail1 == tail2 && (tail1 != [] ==> tm1 == tm2)
    decreases |ts1| + |ts2|
  {
    if ts1 == [] {
      TailIsAll(input, tail1, tm1, ts2, tail2, tm2);
    } else if ts2 == [] {
      TailIsAll(input, tail2, tm2, ts1, tail1, tm1);
    } else {
      SplitTail(input, ts1, tail1, tm1);
      SplitTail(input, ts2, tail2, tm2);
      SameFirstToken(input, ts1[0], ts2[0]);
      SplitUnique(input[|ts1[0].runes|..], ts1[1..], tail1, tm1, ts2[1..], tail2, tm2);
    }
  }

  lemma WaitsAt(m: Mask, rest: seq<Rune>, a: seq<Rune>)
    requires Waiting(m, rest) && a <= rest && a != []
    ensures Pending(m, Encode(a))
  {
    assert a == rest[..|a|];
    assert PendingAt(m, rest, |a|);
  }

  /** What keeps the buffer waiting from beginning to end has no other split. */
  lemma TailIsAll(input: seq<Read>, rest: seq<Rune>, m: Mask, ts: seq<Token>, tail: seq<Rune>, tm: Mask)
    requires SplitOf(input, [], rest, m) && SplitOf(input, ts, tail, tm)
    ensures ts == [] && tail == rest && (tail != [] ==> tm == m)
  {
    assert input == Under(m, rest);
    if ts != [] {
      SplitTail(input, ts, tail, tm);
      var a := ts[0].runes;
      UnderPrefix(ts[0].mask, a, m, rest);
      WaitsAt(m, rest, a);
    } else {
      assert input == Under(tm, tail);
      if tail != [] {
        UnderPrefix(tm, tail, m, rest);
      }
    }
  }

  /** The rune-by-rune buffer computes the split: whatever complete tokens and waiting
      tail the runes written consist of, under the masks in force, the published bytes
      are the tokens' images and the tail is held back, with the limit message behind
      it once the limit is reached. */
  lemma LogOfSplit(p: Reader, inputs: seq<Input>, ts: seq<Token>, tail: seq<Rune>, tm: Mask)
    requires Clear(p) && Calm(p, inputs)
    requires SplitOf(Consumed(p, inputs), ts, tail, tm)
    ensures var q := Run(p, inputs);
            && q.log.published == p.log.published + Images(ts)
            && q.log.tail == if q.stopped then Encode(tail) + p.log.notice else Encode(tail)
  {
    var ts', tail', tm' := LogIsTokenImage(p, inputs);
    SplitUnique(Consumed(p, inputs), ts, tail, tm, ts', tail', tm');
  }

  /** Runes written one after the other, without anything in between. */
  function WriteRunes(p: Reader, rs: seq<Rune>): Reader {
    if rs == [] then p else Step(WriteRunes(p, rs[..|rs| - 1]), Char(rs[|rs| - 1]))
  }

  lemma StepFrame(p: Reader, r: Rune)
    ensures p.stopped ==> Step(p, Char(r)) == p
    ensures Step(p, Char(r)).log.mask == p.log.mask
  {
  }

  // ----- What comes of some runes, in one statement -----

  /** The runes that were read without an error, in order. */
  function ReadRunes(runes: seq<Option<Rune>>): seq<Rune> {
    if runes == [] then []
    else
      var last := runes[|runes| - 1];
      ReadRunes(runes[..|runes| - 1]) + if last.Some? then [last.value] else []
  }

  /** What the loop is given: a rune, or a read that failed with bytes consumed. */
  function ReadInputs(runes: seq<Option<Rune>>): seq<Input> {
    seq(|runes|, i requires 0 <= i < |runes| => if runes[i].Some? then Char(runes[i].value) else Invalid)
  }

  lemma ReadOneMore(runes: seq<Option<Rune>>)
    requires runes != []
    ensures var n := |runes| - 1;
            ReadInputs(runes) == ReadInputs(runes[..n]) + [if runes[n].Some? then Char(runes[n].value) else Invalid]
  {
  }

  /** Reading is writing the runes that were read, and giving them under the mask. */
  lemma {:induction false} ReadIsWrite(p: Reader, runes: seq<Option<Rune>>)
    ensures Run(p, ReadInputs(runes)) == WriteRunes(p, ReadRunes(runes))
    ensures MaskAfter(p.log.mask, ReadInputs(runes)) == p.log.mask
    ensures Given(p.log.mask, ReadInputs(runes)) == Under(p.log.mask, ReadRunes(runes))
  {
    if runes != [] {
      var front, last := runes[..|runes| - 1], runes[|runes| - 1];
      ReadIsWrite(p, front);
      ReadOneMore(runes);
      assert ReadInputs(runes)[..|front|] == ReadInputs(front);
      if last.Some? {
        UnderAppend(p.log.mask, ReadRunes(front), last.value);
        assert ReadRunes(runes)[..|ReadRunes(runes)| - 1] == ReadRunes(front);
      } else {
        assert ReadRunes(runes) == ReadRunes(front);
      }
    }
  }

  /** How many bytes a log holds once these runes are split into tokens and tail. */
  function Held(l: Log, ts: seq<Token>, tail: seq<Rune>): nat {
    |l.published| + |Images(ts)| + |Encode(tail)|
  }

  /** Below its limit whenever exactly these runes have been written. */
  ghost predicate Below(l: Log, rs: seq<Rune>) {
    forall ts, tail :: SplitOf(Under(l.mask, rs), ts, tail, l.mask) ==> Held(l, ts, tail) < l.limit
  }

  ghost predicate BelowAt(l: Log, rs: seq<Rune>, j: nat)
    requires j <= |rs|
  {
    Below(l, rs[..j])
  }

  /** The first k runes are written, as these tokens and this tail: all of them, or up to
      the first one with which the log is not below its limit. */
  ghost predicate Outcome(l: Log, rs: seq<Rune>, k: nat, ts: seq<Token>, tail: seq<Rune>, stopped: bool) {
    && k <= |rs| && SplitOf(Under(l.mask, rs[..k]), ts, tail, l.mask)
    && (forall j :: 0 < j < k ==> BelowAt(l, rs, j))
    && (if stopped then k > 0 && Held(l, ts, tail) >= l.limit
        else k == |rs| && (k > 0 ==> Held(l, ts, tail) < l.limit))
  }

  /** The closed log is this: what was there, tokens hidden or kept, the tail, and the
      message if the limit was reached. */
  ghost predicate Yields(l: Log, rs: seq<Rune>, out: Bytes) {
    exists k: nat, ts, tail, stopped ::
      Outcome(l, rs, k, ts, tail, stopped) && out == Output(l, ts, tail, stopped)
  }

  function Output(l: Log, ts: seq<Token>, tail: seq<Rune>, stopped: bool): Bytes {
    l.published + Images(ts) + if stopped then Encode(tail) + l.notice else Encode(tail)
  }

  lemma BelowFromSplit(l: Log, rs: seq<Rune>, ts: seq<Token>, tail: seq<Rune>)
    requires SplitOf(Under(l.mask, rs), ts, tail, l.mask) && Held(l, ts, tail) < l.limit
    ensures Below(l, rs)
  {
    forall ts', tail' | SplitOf(Under(l.mask, rs), ts', tail', l.mask)
      ensures Held(l, ts', tail') < l.limit
    {
      SplitUnique(Under(l.mask, rs), ts, tail, l.mask, ts', tail', l.mask);
    }
  }

  /** A longer text has the same outcome once the limit is reached. */
  lemma OutcomeStays(l: Log, front: seq<Rune>, r: Rune, k: nat, ts: seq<Token>, tail: seq<Rune>)
    requires Outcome(l, front, k, ts, tail, true)
    ensures Outcome(l, front + [r], k, ts, tail, true)
  {
    var rs := front + [r];
    assert rs[..k] == front[..k];
    forall j | 0 < j < k
      ensures BelowAt(l, rs, j)
    {
      assert BelowAt(l, front, j);
      assert rs[..j] == front[..j];
    }
  }

  lemma OutcomeGrows(l: Log, front: seq<Rune>, r: Rune, ts: seq<Token>, tail: seq<Rune>,
                     ts': seq<Token>, tail': seq<Rune>)
    requires Outcome(l, front, |front|, ts, tail, false)
    requires SplitOf(Under(l.mask, front + [r]), ts', tail', l.mask)
    ensures Outcome(l, front + [r], |front| + 1, ts', tail', Held(l, ts', tail') >= l.limit)
  {
    var rs := front + [r];
    assert front[..|front|] == front && rs[..|rs|] == rs;
    forall j | 0 < j < |rs|
      ensures BelowAt(l, rs, j)
    {
      assert rs[..j] == front[..j];
      if j == |front| {
        BelowFromSplit(l, front, ts, tail);
      } else {
        assert BelowAt(l, front, j);
      }
    }
  }

  /** The reader is where this outcome puts it. */
  ghost predicate At(p: Reader, q: Reader, rs: seq<Rune>, k: nat, ts: seq<Token>, tail: seq<Rune>) {
    && Outcome(p.log, rs, k, ts, tail, q.stopped)
    && Explains(p.log.published, q, ts, tail, p.log.mask, Under(p.log.mask, rs[..k]))
    && q.log.mask == p.log.mask && q.log.notice == p.log.notice && q.log.limit == p.log.limit
  }

  lemma StopsIffFull(p: Reader, r: Rune)
    requires !p.stopped
    ensures var q := Step(p, Char(r));
            var size := if q.stopped then q.log.Size() - |q.log.notice| else q.log.Size();
            q.stopped <==> size >= p.log.limit
  {
  }

  lemma WrittenOneMore(p: Reader, q: Reader, front: seq<Rune>, r: Rune, ts: seq<Token>, tail: seq<Rune>)
      returns (ts': seq<Token>, tail': seq<Rune>)
    requires !q.stopped && At(p, q, front, |front|, ts, tail)
    ensures At(p, Step(q, Char(r)), front + [r], |front| + 1, ts', tail')
  {
    var rs := front + [r];
    assert front[..|front|] == front && rs[..|rs|] == rs;
    ts', tail' := WriteExplained(p.log.published, q, r, ts, tail, Under(p.log.mask, front));
    UnderAppend(p.log.mask, front, r);
    StepFrame(q, r);
    StopsIffFull(q, r);
    OutcomeGrows(p.log, front, r, ts, tail, ts', tail');
  }

  lemma WrittenNoMore(p: Reader, q: Reader, front: seq<Rune>, r: Rune, k: nat, ts: seq<Token>, tail: seq<Rune>)
    requires q.stopped && At(p, q, front, k, ts, tail)
    ensures At(p, Step(q, Char(r)), front + [r], k, ts, tail)
  {
    StepFrame(q, r);
    OutcomeStays(p.log, front, r, k, ts, tail);
    assert (front + [r])[..k] == front[..k];
  }

  ghost predicate HasOutcome(p: Reader, q: Reader, rs: seq<Rune>) {
    exists k: nat, ts, tail :: At(p, q, rs, k, ts, tail)
  }

  lemma WrittenNothing(p: Reader)
    requires Clear(p)
    ensures HasOutcome(p, p, [])
  {
    NothingExplained(p);
    var none: seq<Rune> := [];
    assert none[..0] == [] && Under(p.log.mask, []) == [];
    assert At(p, p, [], 0, [], []);
  }

  lemma WrittenNext(p: Reader, q: Reader, q': Reader, front: seq<Rune>, r: Rune, rs: seq<Rune>)
    requires HasOutcome(p, q, front) && q' == Step(q, Char(r)) && rs == front + [r]
    ensures HasOutcome(p, q', rs)
  {
    var k: nat, ts, tail :| At(p, q, front, k, ts, tail);
    if q.stopped {
      WrittenNoMore(p, q, front, r, k, ts, tail);
    } else {
      var ts', tail' := WrittenOneMore(p, q, front, r, ts, tail);
    }
  }

  lemma {:induction false} WrittenUpTo(p: Reader, rs: seq<Rune>, n: nat)
    requires Clear(p) && n <= |rs|
    ensures HasOutcome(p, WriteRunes(p, rs[..n]), rs[..n])
  {
    if n == 0 {
      WrittenNothing(p);
    } else {
      WriteOneMore(p, rs, n - 1);
      WrittenUpTo(p, rs, n - 1);
      WrittenNext(p, WriteRunes(p, rs[..n - 1]), WriteRunes(p, rs[..n]), rs[..n - 1], rs[n - 1], rs[..n]);
    }
  }

  lemma Written(p: Reader, rs: seq<Rune>)
    requires Clear(p)
    ensures HasOutcome(p, WriteRunes(p, rs), rs)
  {
    WrittenUpTo(p, rs, |rs|);
    assert rs[..|rs|] == rs;
  }

  /** What comes out of the buffer for the runes read, and nothing else. */
  lemma ClosedYields(p: Reader, runes: seq<Option<Rune>>)
    requires Clear(p)
    ensures var l := Closed(Run(p, ReadInputs(runes)));
            Yields(p.log, ReadRunes(runes), l.published) && l.tail == []
  {
    ReadIsWrite(p, runes);
    Written(p, ReadRunes(runes));
    var q := WriteRunes(p, ReadRunes(runes));
    var k: nat, ts, tail :| At(p, q, ReadRunes(runes), k, ts, tail);
    assert Closed(q).published == Output(p.log, ts, tail, q.stopped);
  }

  /** There is only one such log. */
  lemma YieldsUnique(l: Log, rs: seq<Rune>, a: Bytes, b: Bytes)
    requires Yields(l, rs, a) && Yields(l, rs, b)
    ensures a == b
  {
    var k: nat, ts, tail, stopped :| Outcome(l, rs, k, ts, tail, stopped) && a == Output(l, ts, tail, stopped);
    var k': nat, ts', tail', stopped' :|
      Outcome(l, rs, k', ts', tail', stopped') && b == Output(l, ts', tail', stopped');
    NotLonger(l, rs, k, ts, tail, stopped, k', ts', tail', stopped');
    NotLonger(l, rs, k', ts', tail', stopped', k, ts, tail, stopped);
    SplitUnique(Under(l.mask, rs[..k]), ts, tail, l.mask, ts', tail', l.mask);
  }

  lemma FullAt(l: Log, rs: seq<Rune>, k: nat, ts: seq<Token>, tail: seq<Rune>, stopped: bool, j: nat)
    requires Outcome(l, rs, k, ts, tail, stopped) && 0 < j < k
    ensures Below(l, rs[..j])
  {
    assert BelowAt(l, rs, j);
  }

  lemma NotLonger(l: Log, rs: seq<Rune>, k: nat, ts: seq<Token>, tail: seq<Rune>, stopped: bool,
                  k': nat, ts': seq<Token>, tail': seq<Rune>, stopped': bool)
    requires Outcome(l, rs, k, ts, tail, stopped) && Outcome(l, rs, k', ts', tail', stopped')
    ensures k <= k'
  {
    if k' > 0 && k > k' {
      FullAt(l, rs, k, ts, tail, stopped, k');
    }
  }

  // ----- Secrets -----

  /** The unpublished tail is empty or starts some masked value. */
  lemma TailStartsSecret(p: Reader, inputs: seq<Input>)
    requires Clear(p) && Calm(p, inputs)
    requires !Run(p, inputs).stopped
    ensures var l := Run(p, inputs).log;
            l.tail == [] || (l.mask.Keys? && exists v :: v in l.mask.keys && l.tail <= v)
  {
    var ts, tail, tm := LogIsTokenImage(p, inputs);
    if tail != [] {
      WaitsAt(tm, tail, tail);
      PendingStarts(tm, Encode(tail));
    }
  }

  lemma PendingStarts(mask: Mask, rest: Bytes)
    requires Pending(mask, rest)
    ensures exists v :: v in mask.keys && rest <= v
  {
    var v :| v in Search(mask.keys, rest);
  }

  /** The value v is masked and no other masked value extends it. */
  ghost predicate Unextended(mask: Mask, v: Bytes) {
    mask.Keys? && v in mask.keys && forall w :: w in mask.keys && v <= w ==> w == v
  }

  /** The keys are exactly the non-empty values. */
  lemma MaskedValues(values: seq<Bytes>)
    ensures MaskOf(values).NoMask? <==> values == []
    ensures values != [] ==> forall v :: v in MaskOf(values).keys <==> v in values && v != []
  {
  }

  /** Every proper prefix of a masked value keeps the buffer waiting. */
  lemma SecretPrefixWaits(mask: Mask, v: Bytes, p: Bytes)
    requires Unextended(mask, v)
    requires p < v
    ensures Pending(mask, p)
    ensures Search(mask.keys, v) == {v}
  {
    assert v in Search(mask.keys, p);
    assert v in Search(mask.keys, v);
  }

  lemma {:induction false} EncodePrefix(rs: seq<Rune>, k: nat)
    requires k <= |rs|
    ensures Encode(rs[..k]) <= Encode(rs)
    ensures k < |rs| ==> Encode(rs[..k]) < Encode(rs)
    decreases |rs|
  {
    if k < |rs| {
      var front := rs[..|rs| - 1];
      assert front[..k] == rs[..k];
      EncodePrefix(front, k);
    } else {
      assert rs[..k] == rs;
    }
  }

  lemma WriteOneMore(p: Reader, rs: seq<Rune>, k: nat)
    requires k < |rs|
    ensures WriteRunes(p, rs[..k + 1]) == Step(WriteRunes(p, rs[..k]), Char(rs[k]))
    ensures Encode(rs[..k + 1]) == Encode(rs[..k]) + rs[k]
    ensures rs[..k + 1] == rs[..k] + [rs[k]]
  {
    assert rs[..k + 1][..k] == rs[..k];
  }

  /** While a masked value is being written after an empty tail, and the limit is
      not reached, the log holds it unpublished. */
  lemma {:induction false} SecretPartlyWritten(p: Reader, rs: seq<Rune>, v: Bytes, k: nat)
    requires !p.stopped && p.log.tail == []
    requires Unextended(p.log.mask, v) && Encode(rs) == v
    requires k < |rs| && |p.log.published| + |Encode(rs[..k])| < p.log.limit
    ensures WriteRunes(p, rs[..k]) == p.(log := p.log.(tail := Encode(rs[..k])))
  {
    if k > 0 {
      WriteOneMore(p, rs, k - 1);
      SecretPartlyWritten(p, rs, v, k - 1);
      EncodePrefix(rs, k);
      SecretPrefixWaits(p.log.mask, v, Encode(rs[..k]));
    }
  }

  /** The rune that completes the value publishes the mask text. */
  lemma SecretCompleted(q: Reader, r: Rune, v: Bytes)
    requires !q.stopped && Unextended(q.log.mask, v) && q.log.tail + r == v
    ensures Step(q, Char(r)).log.published == q.log.published + MASKED_TEXT
  {
    assert v in Search(q.log.mask.keys, v);
    assert Search(q.log.mask.keys, v) == {v};
    WriteIsAdvance(q, r);
  }

  /** A rune that reaches the limit inside the value stops the reader. */
  lemma SecretCutOff(q: Reader, r: Rune)
    requires !q.stopped && Pending(q.log.mask, q.log.tail + r) && q.log.Size() + |r| >= q.log.limit
    ensures var u := Step(q, Char(r));
            u.stopped && u.log == q.log.(tail := q.log.tail + r + q.log.notice)
  {
  }

  /** The reader stopped at the k-th rune, the first one that reaches the limit: the runes
      up to there are stored, with the message behind them, and unpublished. */
  predicate CutAt(p: Reader, q: Reader, rs: seq<Rune>, k: nat) {
    && 0 < k <= |rs|
    && |p.log.published| + |Encode(rs[..k - 1])| < p.log.limit <= |p.log.published| + |Encode(rs[..k])|
    && q == Reader(p.log.(tail := Encode(rs[..k]) + p.log.notice), true)
  }

  /** A masked value that no other masked value extends, written where nothing is
      pending, comes out as [MASKED] exactly when the limit leaves room for all
      but its last rune; otherwise the reader stops inside it, and what was read of
      it, a proper prefix, comes out in clear before the message when the log is closed. */
  lemma SecretIsMasked(p: Reader, rs: seq<Rune>, v: Bytes)
    requires !p.stopped && p.log.tail == []
    requires Unextended(p.log.mask, v) && Encode(rs) == v && v != []
    requires |p.log.published| < p.log.limit
    ensures var q := WriteRunes(p, rs);
            var room := |p.log.published| + |Encode(rs[..|rs| - 1])| < p.log.limit;
            && (room ==> q.log.published == p.log.published + MASKED_TEXT)
            && (!room ==> exists k: nat :: CutAt(p, q, rs, k) && Encode(rs[..k]) < v &&
                            Closed(q).published == p.log.published + (Encode(rs[..k]) + p.log.notice))
  {
    var n := |rs| - 1;
    assert rs[..n + 1] == rs;
    if |p.log.published| + |Encode(rs[..n])| < p.log.limit {
      SecretPartlyWritten(p, rs, v, n);
      WriteOneMore(p, rs, n);
      SecretCompleted(WriteRunes(p, rs[..n]), rs[n], v);
    } else {
      var k := StopsInside(p, rs, v, n);
      StepFrame(WriteRunes(p, rs[..n]), rs[n]);
      WriteOneMore(p, rs, n);
      EncodePrefix(rs, k);
      assert CutAt(p, WriteRunes(p, rs), rs, k);
    }
  }

  /** Any value given to SetMasked, if no other value given extends it, is hidden when it
      is written where nothing is pending and the limit leaves room for it. */
  lemma ValueIsMasked(p: Reader, values: seq<Bytes>, v: Bytes, rs: seq<Rune>)
    requires Clear(p) && v in values && v != [] && Encode(rs) == v
    requires forall w :: w in values && v <= w ==> w == v
    requires |p.log.published| + |v| < p.log.limit
    ensures WriteRunes(Step(p, SetMasked(values)), rs).log.published == p.log.published + MASKED_TEXT
  {
    MaskedValues(values);
    EncodePrefix(rs, |rs| - 1);
    SecretIsMasked(Step(p, SetMasked(values)), rs, v);
  }

  lemma {:induction false} StopsInside(p: Reader, rs: seq<Rune>, v: Bytes, n: nat) returns (k: nat)
    requires !p.stopped && p.log.tail == []
    requires Unextended(p.log.mask, v) && Encode(rs) == v
    requires |p.log.published| < p.log.limit
    requires n < |rs| && |p.log.published| + |Encode(rs[..n])| >= p.log.limit
    ensures k <= n && CutAt(p, WriteRunes(p, rs[..n]), rs, k)
  {
    assert n > 0;
    WriteOneMore(p, rs, n - 1);
    if |p.log.published| + |Encode(rs[..n - 1])| >= p.log.limit {
      k := StopsInside(p, rs, v, n - 1);
      StepFrame(WriteRunes(p, rs[..n - 1]), rs[n - 1]);
    } else {
      k := n;
      SecretPartlyWritten(p, rs, v, n - 1);
      EncodePrefix(rs, n);
      SecretPrefixWaits(p.log.mask, v, Encode(rs[..n]));
      SecretCutOff(WriteRunes(p, rs[..n - 1]), rs[n - 1]);
    }
  }

  /** Text that keeps the buffer waiting is held back as it is. */
  lemma {:induction false} HeldBack(p: Reader, rs: seq<Rune>)
    requires !p.stopped && p.log.tail == [] && Waiting(p.log.mask, rs)
    requires |p.log.published| + |Encode(rs)| < p.log.limit
    ensures WriteRunes(p, rs) == p.(log := p.log.(tail := Encode(rs)))
  {
    if rs != [] {
      var front := rs[..|rs| - 1];
      forall k | 0 < k <= |front|
        ensures PendingAt(p.log.mask, front, k)
      {
        assert front[..k] == rs[..k];
        assert PendingAt(p.log.mask, rs, k);
      }
      HeldBack(p, front);
      assert rs[..|rs|] == rs;
      assert PendingAt(p.log.mask, rs, |rs|);
    }
  }

  /** A masked value that another one extends keeps the buffer waiting to its end. */
  lemma ExtendedWaits(mask: Mask, rs: seq<Rune>, v: Bytes, w: Bytes)
    requires mask.Keys? && v in mask.keys && w in mask.keys && v < w && Encode(rs) == v
    ensures Waiting(mask, rs)
  {
    forall k | 0 < k <= |rs|
      ensures PendingAt(mask, rs, k)
    {
      EncodePrefix(rs, k);
      var p := Encode(rs[..k]);
      assert w in Search(mask.keys, p) && w != p;
    }
  }

  /** Where nothing is pending and the limit is far enough, writing a masked value
      publishes the mask text at once if and only if no other masked value extends it.
      Otherwise it is held back, and comes out in clear if the log is closed there or
      goes on with a rune that no masked value has in this place. */
  lemma MaskedAtOnceIffUnextended(p: Reader, rs: seq<Rune>, v: Bytes)
    requires !p.stopped && p.log.tail == []
    requires p.log.mask.Keys? && v in p.log.mask.keys && Encode(rs) == v && v != []
    requires |p.log.published| + |v| < p.log.limit
    ensures var q := WriteRunes(p, rs);
            && (q.log.published == p.log.published + MASKED_TEXT <==> Unextended(p.log.mask, v))
            && (!Unextended(p.log.mask, v) ==>
                  && q.log.published == p.log.published && q.log.tail == v
                  && Closed(q).published == p.log.published + v
                  && (forall r: Rune :: Search(p.log.mask.keys, v + r) == {} ==>
                        Step(q, Char(r)).log.published == p.log.published + (v + r)))
  {
    if Unextended(p.log.mask, v) {
      EncodePrefix(rs, |rs| - 1);
      SecretIsMasked(p, rs, v);
    } else {
      var w :| w in p.log.mask.keys && v <= w && w != v;
      ExtendedWaits(p.log.mask, rs, v, w);
      HeldBack(p, rs);
      forall r: Rune | Search(p.log.mask.keys, v + r) == {}
        ensures Step(WriteRunes(p, rs), Char(r)).log.published == p.log.published + (v + r)
      {
        WriteIsAdvance(WriteRunes(p, rs), r);
      }
    }
  }

  // ----- The limit -----

  /** Once the limit is reached nothing more is stored or published. */
  lemma {:induction false} StoppedIsFrozen(p: Reader, inputs: seq<Input>)
    requires p.stopped
    ensures var q := Run(p, inputs);
            q.stopped && q.log.published == p.log.published && q.log.tail == p.log.tail
  {
    if inputs != [] {
      StoppedIsFrozen(p, inputs[..|inputs| - 1]);
    }
  }

  function LongestLog(limit: int): int {
    Max(limit, 1) + 7 + |LimitMessage(limit)|
  }

  /** The log never grows past the limit by more than one mask text less a byte,
      plus the message, for any sequence of runes and mask changes. */
  lemma {:induction false} LogLengthBounded(limit: int, inputs: seq<Input>)
    ensures var p := Run(Fresh(limit), inputs);
            && (!p.stopped ==> p.log.Size() < Max(limit, 1))
            && Closed(p).Size() <= LongestLog(limit)
  {
    if inputs != [] {
      LogLengthBounded(limit, inputs[..|inputs| - 1]);
    }
  }

  lemma RunStep(p: Reader, inputs: seq<Input>, i: Input)
    ensures Run(p, inputs + [i]) == Step(Run(p, inputs), i)
  {
    assert (inputs + [i])[..|inputs|] == inputs;
  }

  /** n times the letter b. */
  function Plain(n: nat): seq<Input> {
    if n == 0 then [] else Plain(n - 1) + [Char([98])]
  }

  /** Nothing masked, nothing pending, n bytes published. */
  predicate AllPublished(p: Reader, n: nat) {
    !p.stopped && p.log.mask.NoMask? && p.log.tail == [] && |p.log.published| == n
  }

  lemma PlainStep(p: Reader, n: nat)
    requires AllPublished(p, n) && n + 1 < p.log.limit
    ensures AllPublished(Step(p, Char([98])), n + 1)
  {
  }

  /** Without a mask, text below the limit is published as it comes. */
  lemma {:induction false} PlainWritten(limit: int, n: nat)
    requires n == 0 || n < limit
    ensures AllPublished(Run(Fresh(limit), Plain(n)), n)
  {
    if n > 0 {
      PlainWritten(limit, n - 1);
      RunStep(Fresh(limit), Plain(n - 1), Char([98]));
      PlainStep(Run(Fresh(limit), Plain(n - 1)), n - 1);
    }
  }

  /** A one-byte secret, read where nothing is pending, is hidden. */
  lemma OneByteHidden(p: Reader)
    requires !p.stopped && p.log.tail == []
    ensures var q := Step(Step(p, SetMasked([[97]])), Char([97]));
            && q.log.published == p.log.published + MASKED_TEXT
            && q.log.tail == (if q.stopped then q.log.notice else [])
            && (q.stopped <==> |q.log.published| >= q.log.limit)
  {
    var m := Step(p, SetMasked([[97]]));
    assert m.log.mask == Keys({[97]}) by {
      var values: seq<Bytes> := [[97]];
      assert forall v: Bytes :: v in values <==> v == values[0];
    }
    var l := m.log.(tail := m.log.tail + [97]);
    assert l.tail == [97];
    assert [97 as byte] in Search({[97]}, l.tail);
    assert Search(l.mask.keys, l.tail) == {[97]};
    assert [] + m.log.notice == m.log.notice;
  }

  /** The bound is attained for every limit: plain text up to one byte below the
      limit, then a one-byte secret. */
  lemma LogLengthAttained(limit: int)
    ensures var inputs := Plain(Max(limit - 1, 0)) + [SetMasked([[97]])] + [Char([97])];
            Closed(Run(Fresh(limit), inputs)).Size() == LongestLog(limit)
  {
    var plain := Plain(Max(limit - 1, 0));
    PlainWritten(limit, Max(limit - 1, 0));
    RunStep(Fresh(limit), plain, SetMasked([[97]]));
    RunStep(Fresh(limit), plain + [SetMasked([[97]])], Char([97]));
    OneByteHidden(Run(Fresh(limit), plain));
  }

  // ----- The buffer object -----

  class Buffer {
    var log: Bytes
    var logMaskedSize: nat
    var bytesLimit: int
    var maskTree: Mask

    ghost predicate Valid()
      reads this
    {
      logMaskedSize <= |log|
    }

    /** The buffer as a value, with the message its limit is announced by. */
    ghost function Value(notice: Bytes): Log
      requires Valid()
      reads this
    {
      Log(log[..logMaskedSize], log[logMaskedSize..], maskTree, bytesLimit, notice)
    }

    constructor ()
      ensures Valid() && log == [] && logMaskedSize == 0
      ensures bytesLimit == DEFAULT_BYTES_LIMIT && maskTree == NoMask
    {
      log, logMaskedSize, bytesLimit, maskTree := [], 0, DEFAULT_BYTES_LIMIT, NoMask;
    }

    method SetMasked(values: seq<Bytes>)
      modifies this`maskTree
      ensures maskTree == MaskOf(values)
      ensures values == [] ==> maskTree.NoMask?
      ensures values != [] ==> maskTree.Keys? && forall v :: v in maskTree.keys <==> v in values && v != []
    {
      if |values| == 0 {
        maskTree := NoMask;
        return;
      }
      var keys := TreeKeys(values);
      maskTree := Keys(keys);
    }

    method SetLimit(size: int)
      modifies this`bytesLimit
      ensures bytesLimit == size
    {
      bytesLimit := size;
    }

    method GetBytes() returns (b: Bytes)
      requires Valid()
      ensures b == Value([]).published
    {
      b := log[0..logMaskedSize];
    }

    method AdvanceAll()
      requires Valid()
      modifies this`logMaskedSize
      ensures Valid() && Value([]) == old(Value([])).AdvanceAll() && logMaskedSize == |log|
    {
      logMaskedSize := |log|;
      assert log[..logMaskedSize] == old(log[..logMaskedSize]) + old(log[logMaskedSize..]);
    }

    method AdvanceLog()
      requires Valid()
      modifies this`log, this`logMaskedSize
      ensures Valid() && Value([]) == old(Value([])).Advance()
    {
      if maskTree.NoMask? {
        AdvanceAll();
        return;
      }
      var rest := log[logMaskedSize..];
      var results := Search(maskTree.keys, rest);
      if results == {} {
        AdvanceAll();
        return;
      }
      if |results| == 1 && rest in results {
        OnlyMember(results, rest);
        log := log[..logMaskedSize];
        log := log + MASKED_TEXT;
        AdvanceAll();
      }
    }

    method Append(text: Bytes)
      requires Valid()
      modifies this`log
      ensures Valid() && log == old(log) + text
      ensures Value([]) == old(Value([])).(tail := old(Value([])).tail + text)
    {
      log := log + text;
    }

    method WriteRune(r: Rune) returns (eof: bool)
      requires Valid()
      modifies this`log, this`logMaskedSize
      ensures Valid()
      ensures var notice := LimitMessage(bytesLimit); (Value(notice), eof) == old(Value(notice)).WriteRune(r)
    {
      Append(r);
      ghost var l := Value([]);
      AdvanceLog();
      assert |log| == Value([]).Size();
      var message := LimitMessage(bytesLimit);
      NoticeIsIdle(l, message);
      if |log| < bytesLimit {
        return false;
      }
      Append(message);
      return true;
    }

    /** The reading loop up to the closing of the pipe, and the final advance. */
    method Process(runes: seq<Option<Rune>>)
      requires Valid()
      modifies this`log, this`logMaskedSize
      ensures Valid()
      ensures var notice := LimitMessage(bytesLimit);
              && Value(notice) == Closed(Run(Reader(old(Value(notice)), false), ReadInputs(runes)))
              && (old(Value([])).tail == [] ==>
                    Yields(old(Value(notice)), ReadRunes(runes), log) && logMaskedSize == |log|)
    {
      var stopped := false;
      ghost var notice := LimitMessage(bytesLimit);
      ghost var start := Reader(Value(notice), false);
      ghost var ins := ReadInputs(runes);
      for i := 0 to |runes|
        invariant Valid()
        invariant Reader(Value(notice), stopped) == Run(start, ins[..i])
      {
        assert ins[..i + 1][..i] == ins[..i];
        if stopped {
          continue;
        } else if runes[i].Some? {
          stopped := WriteRune(runes[i].value);
        }
      }
      assert ins[..|runes|] == ins;
      AdvanceAll();
      assert logMaskedSize == |log| && log[..logMaskedSize] == log;
      if start.log.tail == [] {
        ClosedYields(start, runes);
      }
    }
  }

  /** The notice plays no part in advancing. */
  lemma NoticeIsIdle(l: Log, notice: Bytes)
    ensures l.(notice := notice).Advance() == l.Advance().(notice := notice)
  {
  }

  /** The keys of the tree built from some values. */
  method TreeKeys(values: seq<Bytes>) returns (keys: set<Bytes>)
    ensures keys == set v | v in values && v != []
  {
    keys := {};
    for i := 0 to |values|
      invariant keys == set v | v in values[..i] && v != []
    {
      if values[i] != [] {
        keys := keys + {values[i]};
      }
      assert values[..i + 1] == values[..i] + [values[i]];
    }
    assert values[..|values|] == values;
  }

  lemma OnlyMember<T>(s: set<T>, x: T)
    requires |s| == 1 && x in s
    ensures s == {x}
  {
    assert |s - {x}| == 0;
    assert s == {x} + (s - {x});
  }
}
