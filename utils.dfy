/**
 * common/utils.py: the language-model answer helper and `chunk_list`.
 * The completion endpoint itself is an oracle from a query to the raw
 * message content.
 */
module Utils {
  import opened Text

  /** One chat-completion exchange: a system message, a user message, a temperature. */
  datatype Query = Query(system: string, user: string, temperature: real)

  /** The completion endpoint: the raw `message.content` it returns for a query. */
  type Model = Query -> string

  /** `get_gpt_answer`'s default temperature. */
  const DefaultTemperature: real := 0.7

  /** The post-processing `get_gpt_answer` applies to the raw content. */
  function Normalize(s: string): string
  {
    Lower(Strip(s))
  }

  lemma LowerKeepsTrimmed(s: string)
    requires Trimmed(s)
    ensures Trimmed(Lower(s))
  {
    if s != [] {
      LowerCharKeepsNonSpace(s[0]);
      LowerCharKeepsNonSpace(s[|s| - 1]);
    }
  }

  lemma LowerCharKeepsNonSpace(c: char)
    requires !IsSpace(c)
    ensures !IsSpace(LowerChar(c))
  {
    if 'A' <= c <= 'Z' {
      assert 'a' <= LowerChar(c) <= 'z';
    }
  }

  lemma LowerIdempotent(s: string)
    ensures Lower(Lower(s)) == Lower(s)
  {
    var t := Lower(s);
    assert forall i :: 0 <= i < |t| ==> LowerChar(t[i]) == t[i];
  }

  /** Normalizing twice gives what normalizing once gave. */
  lemma NormalizeIdempotent(s: string)
    ensures Normalize(Normalize(s)) == Normalize(s)
  {
    var t := Lower(Strip(s));
    LowerKeepsTrimmed(Strip(s));
    StripOfTrimmed(t);
    LowerIdempotent(Strip(s));
  }

  /**
   * `get_gpt_answer(system, user, temperature)`: the model's answer,
   * stripped and lower-cased; it is therefore already in the form the
   * callers' own `.strip().lower()` would give it.
   */
  function GetGptAnswer(model: Model, q: Query): (a: string)
    ensures Strip(a) == a && Lower(a) == a
    ensures Normalize(a) == a
  {
    var a := Normalize(model(q));
    NormalizeIdempotent(model(q));
    LowerKeepsTrimmed(Strip(model(q)));
    StripOfTrimmed(a);
    a
  }

  /** Concatenation of a sequence of sequences, front to back. */
  function Flatten<T>(chunks: seq<seq<T>>): seq<T>
  {
    if chunks == [] then [] else chunks[0] + Flatten(chunks[1..])
  }

  lemma {:induction false} FlattenAppend<T>(a: seq<seq<T>>, b: seq<seq<T>>)
    ensures Flatten(a + b) == Flatten(a) + Flatten(b)
  {
    if a == [] {
      assert a + b == b;
    } else {
      assert (a + b)[1..] == a[1..] + b;
      FlattenAppend(a[1..], b);
    }
  }

  /**
   * `chunk_list(lst, chunk_size)`: the slices `lst[i:i + chunk_size]` for
   * `i` in `range(0, len(lst), chunk_size)`. A negative size makes the
   * range empty; a zero size makes `range` raise, which callers must avoid.
   */
  function ChunkList<T>(lst: seq<T>, chunkSize: int): (chunks: seq<seq<T>>)
    requires chunkSize != 0
    ensures chunkSize < 0 ==> chunks == []
    ensures forall i :: 0 <= i < |chunks| ==> 0 < |chunks[i]| <= chunkSize
    ensures forall i :: 0 <= i < |chunks| - 1 ==> |chunks[i]| == chunkSize
    decreases |lst|
  {
    if chunkSize < 0 || lst == [] then []
    else if |lst| <= chunkSize then [lst]
    else [lst[..chunkSize]] + ChunkList(lst[chunkSize..], chunkSize)
  }

  /** The chunks, concatenated, give the list back: nothing is lost, repeated or reordered. */
  lemma {:induction false} ChunkListFlatten<T>(lst: seq<T>, chunkSize: int)
    requires chunkSize > 0
    ensures Flatten(ChunkList(lst, chunkSize)) == lst
    decreases |lst|
  {
    if |lst| > chunkSize {
      var rest := lst[chunkSize..];
      ChunkListFlatten(rest, chunkSize);
      assert ChunkList(lst, chunkSize)[1..] == ChunkList(rest, chunkSize);
      assert lst == lst[..chunkSize] + rest;
    } else if lst != [] {
      assert Flatten([lst]) == lst + Flatten([]);
    }
  }

  /**
   * The number of chunks is `ceil(len(lst) / chunk_size)`: the smallest
   * count whose chunks of full size could hold the list. An empty list
   * yields no chunks.
   */
  lemma {:induction false} ChunkListCount<T>(lst: seq<T>, chunkSize: int)
    requires chunkSize > 0
    ensures var c := |ChunkList(lst, chunkSize)|;
      |lst| <= c * chunkSize < |lst| + chunkSize
    ensures ChunkList(lst, chunkSize) == [] <==> lst == []
  {
    if |lst| > chunkSize {
      var rest := lst[chunkSize..];
      ChunkListCount(rest, chunkSize);
      var c' := |ChunkList(rest, chunkSize)|;
      assert |ChunkList(lst, chunkSize)| == c' + 1;
      assert (c' + 1) * chunkSize == c' * chunkSize + chunkSize;
    }
  }

  /** Chunk `i` is exactly the slice `lst[i * chunk_size : (i + 1) * chunk_size]`, clamped. */
  lemma ChunkListSlice<T>(lst: seq<T>, chunkSize: int, i: nat)
    requires chunkSize > 0 && i < |ChunkList(lst, chunkSize)|
    ensures i * chunkSize < |lst|
    ensures ChunkList(lst, chunkSize)[i] == lst[i * chunkSize .. Min((i + 1) * chunkSize, |lst|)]
  {
    ChunkAt(lst, chunkSize, i);
    TimesIsProduct(i, chunkSize);
    MulSucc(i, chunkSize);
  }

  /** `i * k` as repeated addition, which keeps the induction over chunks linear. */
  function Times(i: nat, k: nat): nat
  {
    if i == 0 then 0 else Times(i - 1, k) + k
  }

  lemma {:induction false} TimesIsProduct(i: nat, k: nat)
    ensures Times(i, k) == i * k
  {
    if i > 0 {
      TimesIsProduct(i - 1, k);
      MulSucc(i - 1, k);
    }
  }

  lemma {:induction false} ChunkAt<T>(lst: seq<T>, chunkSize: int, i: nat)
    requires chunkSize > 0 && i < |ChunkList(lst, chunkSize)|
    ensures Times(i, chunkSize) < |lst|
    ensures ChunkList(lst, chunkSize)[i] == lst[Times(i, chunkSize) .. Min(Times(i, chunkSize) + chunkSize, |lst|)]
  {
    if i == 0 {
      ChunkListHead(lst, chunkSize);
    } else {
      var rest := lst[chunkSize..];
      ChunkListTail(lst, chunkSize, i);
      ChunkAt(rest, chunkSize, i - 1);
      var before := Times(i - 1, chunkSize);
      var lo := Times(i, chunkSize);
      assert lo == before + chunkSize;
      var hi := Min(before + chunkSize, |rest|);
      SliceOfSuffix(lst, chunkSize, before, hi);
      assert hi + chunkSize == Min(lo + chunkSize, |lst|);
      assert ChunkList(lst, chunkSize)[i] == rest[before..hi] == lst[lo..hi + chunkSize];
    }
  }

  lemma ChunkListHead<T>(lst: seq<T>, chunkSize: int)
    requires chunkSize > 0 && lst != []
    ensures ChunkList(lst, chunkSize)[0] == lst[0..Min(chunkSize, |lst|)]
  {
  }

  lemma ChunkListTail<T>(lst: seq<T>, chunkSize: int, i: nat)
    requires chunkSize > 0 && 0 < i < |ChunkList(lst, chunkSize)|
    ensures chunkSize < |lst|
    ensures i - 1 < |ChunkList(lst[chunkSize..], chunkSize)|
    ensures ChunkList(lst, chunkSize)[i] == ChunkList(lst[chunkSize..], chunkSize)[i - 1]
  {
  }

  lemma MulSucc(i: int, n: int)
    ensures (i + 1) * n == i * n + n
  {
  }

  lemma SliceOfSuffix<T>(lst: seq<T>, k: nat, lo: nat, hi: nat)
    requires k <= |lst| && lo <= hi <= |lst| - k
    ensures lst[k..][lo..hi] == lst[lo + k..hi + k]
  {
  }

  function Min(a: int, b: int): int
  {
    if a <= b then a else b
  }
}
