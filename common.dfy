/** Small value types shared by every module, and the two pieces of Python
    list and string behaviour the engine relies on: indexing (negative
    indices count from the end, anything else out of range raises
    IndexError) and `str.split` on a one-character separator. */
module Common {

  datatype Option<T> = None | Some(value: T)

  datatype Result<T, E> = Ok(value: T) | Err(error: E)

  datatype Outcome<E> = Pass | Fail(error: E)

  /** Python's `max` of two integers. */
  function Max(a: int, b: int): int
  {
    if a >= b then a else b
  }

  /** The position `xs[i]` denotes in a Python list of length `n`, or None
      when Python raises IndexError. */
  function PyIndex(i: int, n: nat): (r: Option<nat>)
    ensures r.Some? <==> -(n as int) <= i < n
    ensures r.Some? ==> r.value < n && (r.value == i || r.value == i + n)
  {
    if 0 <= i < n then Some(i)
    else if -(n as int) <= i < 0 then Some(i + n)
    else None
  }

  /** Python's `xs[i]`, None standing for IndexError. */
  function PyGet<T>(xs: seq<T>, i: int): (r: Option<T>)
    ensures r.Some? <==> -|xs| <= i < |xs|
    ensures 0 <= i < |xs| ==> r == Some(xs[i])
    ensures -|xs| <= i < 0 ==> r == Some(xs[|xs| + i])
  {
    match PyIndex(i, |xs|)
    case Some(k) => Some(xs[k])
    case None => None
  }

  /** Python's `xs[i][j]` on a list of rows. */
  function PyGet2<T>(rows: seq<seq<T>>, i: int, j: int): (r: Option<T>)
    ensures r.Some? <==> PyIndex(i, |rows|).Some? && PyIndex(j, |rows[PyIndex(i, |rows|).value]|).Some?
    ensures r.Some? ==> r.value == rows[PyIndex(i, |rows|).value][PyIndex(j, |rows[PyIndex(i, |rows|).value]|).value]
    ensures 0 <= i < |rows| && 0 <= j < |rows[i]| ==> r == Some(rows[i][j])
    ensures i >= |rows| || i < -|rows| ==> r == None
  {
    match PyGet(rows, i)
    case Some(row) => PyGet(row, j)
    case None => None
  }

  /** Python's `rows[i][j] = v`, None standing for IndexError: exactly one
      cell changes, the one `rows[i][j]` denotes. */
  function PySet2<T>(rows: seq<seq<T>>, i: int, j: int, v: T): (r: Option<seq<seq<T>>>)
    ensures r.Some? <==> PyIndex(i, |rows|).Some? && PyIndex(j, |rows[PyIndex(i, |rows|).value]|).Some?
    ensures r.Some? ==>
      var a, b := PyIndex(i, |rows|).value, PyIndex(j, |rows[PyIndex(i, |rows|).value]|).value;
      |r.value| == |rows|
      && (forall y :: 0 <= y < |rows| ==> |r.value[y]| == |rows[y]|)
      && (forall y, x :: 0 <= y < |rows| && 0 <= x < |rows[y]| ==>
            r.value[y][x] == if y == a && x == b then v else rows[y][x])
  {
    match PyIndex(i, |rows|)
    case None => None
    case Some(a) =>
      match PyIndex(j, |rows[a]|)
      case None => None
      case Some(b) => Some(rows[a := rows[a][b := v]])
  }

  /** Python's `s.split(sep)` for a one-character separator: the pieces
      between separators, always at least one (possibly empty) piece. */
  function Split(s: string, sep: char): (r: seq<string>)
    ensures |r| >= 1
    ensures forall k :: 0 <= k < |r| ==> sep !in r[k]
  {
    if s == [] then [""]
    else
      var rest := Split(s[1..], sep);
      if s[0] == sep then [""] + rest
      else [[s[0]] + rest[0]] + rest[1..]
  }

  /** Python's `sep.join(parts)`. */
  function Join(parts: seq<string>, sep: char): string
  {
    if |parts| == 0 then ""
    else if |parts| == 1 then parts[0]
    else parts[0] + [sep] + Join(parts[1..], sep)
  }

  /** Joining the pieces back reproduces the split string. */
  lemma {:induction false} JoinSplit(s: string, sep: char)
    ensures Join(Split(s, sep), sep) == s
  {
    if s != [] {
      JoinSplit(s[1..], sep);
      var rest := Split(s[1..], sep);
      if s[0] != sep {
        var r := Split(s, sep);
        assert r == [[s[0]] + rest[0]] + rest[1..];
        if |rest| == 1 {
          assert Join(r, sep) == [s[0]] + rest[0];
        } else {
          assert r[1..] == rest[1..];
          assert Join(r, sep) == [s[0]] + rest[0] + [sep] + Join(rest[1..], sep);
          assert Join(rest, sep) == rest[0] + [sep] + Join(rest[1..], sep);
        }
      }
    }
  }

  /** A string without the separator is its own single piece. */
  lemma {:induction false} SplitNoSeparator(s: string, sep: char)
    requires sep !in s
    ensures Split(s, sep) == [s]
  {
    if s != [] {
      SplitNoSeparator(s[1..], sep);
      assert [s[0]] + s[1..] == s;
    }
  }

  /** Splitting `a + sep + b` splits `a` and `b` separately. */
  lemma {:induction false} SplitConcat(a: string, b: string, sep: char)
    ensures Split(a + [sep] + b, sep) == Split(a, sep) + Split(b, sep)
  {
    if a == [] {
      assert a + [sep] + b == [sep] + b;
      assert ([sep] + b)[1..] == b;
    } else {
      var ab := a + [sep] + b;
      assert ab[0] == a[0];
      assert ab[1..] == a[1..] + [sep] + b;
      SplitConcat(a[1..], b, sep);
    }
  }

  /** The first index below `n` at which `ok` fails, or `n` if none does. */
  function FirstFalse(ok: nat -> bool, n: nat): (k: nat)
    ensures k <= n
    ensures forall i :: 0 <= i < k ==> ok(i)
    ensures k < n ==> !ok(k)
  {
    if n == 0 then 0
    else
      var k := FirstFalse(ok, n - 1);
      if k < n - 1 then k else if !ok(n - 1) then n - 1 else n
  }

  /** The three properties above determine the index. */
  lemma FirstFalseIs(ok: nat -> bool, n: nat, k: nat)
    requires k <= n
    requires forall i :: 0 <= i < k ==> ok(i)
    requires k < n ==> !ok(k)
    ensures FirstFalse(ok, n) == k
  {
  }

  /** A multiple of a positive `c` strictly between `-c` and `c` is zero. */
  lemma MultipleBelowFactor(c: int, d: int)
    requires c > 0 && -c < c * d < c
    ensures d == 0
  {
  }

  /** Euclidean division is determined by the interval the dividend lies in. */
  lemma DivisionUnique(a: int, c: int, q: int)
    requires c > 0 && q * c <= a < q * c + c
    ensures a / c == q && a % c == a - q * c
  {
    var q', r := a / c, a % c;
    assert a == c * q' + r && 0 <= r < c;
    assert c * (q - q') == r - (a - q * c);
    MultipleBelowFactor(c, q - q');
  }
}
