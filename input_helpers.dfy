/**
 * The input helpers of the front-end forms: defaults for missing values, the "has a value"
 * status of a field, and matching error keys against field names once array indexes are
 * stripped from them.
 */
module InputHelpers {
  import opened Common
  import opened Text

  /** getDefaultWhenNullOrUndefined: the value when there is one (null and undefined are None). */
  function DefaultWhenMissing(value: Option<string>, defaultValue: string): (r: string)
    ensures value.Some? ==> r == value.value
    ensures value.None? ==> r == defaultValue
  {
    match value
    case Some(v) => v
    case None => defaultValue
  }

  /** `entities.some(e => e[key] === value)`, with `keyOf` reading the key field. */
  function SomeHas<E>(entities: seq<E>, keyOf: E -> JsValue, value: string): (b: bool)
    ensures b <==> exists i :: 0 <= i < |entities| && keyOf(entities[i]) == Str(value)
  {
    if entities == [] then false
    else if keyOf(entities[0]) == Str(value) then true
    else
      var b := SomeHas(entities[1..], keyOf, value);
      assert b ==> keyOf(entities[1..][0]) == Str(value) || exists i :: 1 <= i < |entities| && keyOf(entities[i]) == Str(value);
      b
  }

  /**
   * getDefaultWhenArrayNullOrUndefined: the value only when it is there, the entities are there,
   * and one of them carries it under the key; the default otherwise.
   */
  function DefaultWhenNotListed<E>(entities: Option<seq<E>>, keyOf: E -> JsValue, value: Option<string>, defaultValue: string): (r: string)
    ensures value.Some? && entities.Some? && (exists i :: 0 <= i < |entities.value| && keyOf(entities.value[i]) == Str(value.value)) ==>
      r == value.value
    ensures !(value.Some? && entities.Some? && exists i :: 0 <= i < |entities.value| && keyOf(entities.value[i]) == Str(value.value)) ==>
      r == defaultValue
  {
    if value.Some? && entities.Some? && SomeHas(entities.value, keyOf, value.value) then value.value
    else defaultValue
  }

  /**
   * getShrinkStatus and getErrorStatus, which are the same test: false exactly for undefined,
   * null and the empty string.
   */
  predicate Filled(value: JsValue)
  {
    !(value.Undefined? || value.Null? || value == Str(""))
  }

  /** A number, a string or an object other than "" counts as filled. */
  lemma FilledValues(value: JsValue)
    ensures Filled(value) <==> value.Other? || (value.Str? && value.s != "")
  {
  }

  /** The number of decimal digits `s` starts with. */
  function DigitRun(s: string): (n: nat)
    ensures n <= |s| && AllDigits(s[..n])
    ensures n < |s| ==> !IsDigit(s[n])
  {
    if s != [] && IsDigit(s[0]) then
      var n := DigitRun(s[1..]) + 1;
      assert s[..n] == [s[0]] + s[1..][..n - 1];
      n
    else 0
  }

  /** The length of the "[digits]" group `s` starts with, 0 when it starts with none. */
  function IndexLength(s: string): (n: nat)
    ensures n == 0 || (3 <= n <= |s| && s[0] == '[' && s[n - 1] == ']' && AllDigits(s[1..n - 1]))
  {
    if s != [] && s[0] == '[' then
      var d := DigitRun(s[1..]);
      if d > 0 && 1 + d < |s| && s[1 + d] == ']' then
        assert s[1..d + 1] == s[1..][..d];
        d + 2
      else 0
    else 0
  }

  /**
   * `key.replace(/\[\d+\]/g, '')`: every "[digits]" group is removed, scanning once from left
   * to right, so a group that only forms once another is removed stays.
   */
  function StripIndexes(s: string): (r: string)
    ensures |r| <= |s|
    decreases |s|
  {
    if s == [] then []
    else
      var n := IndexLength(s);
      if n > 0 then StripIndexes(s[n..])
      else
        assert s == [s[0]] + s[1..];
        [s[0]] + StripIndexes(s[1..])
  }

  /** Text without an opening bracket is left as it is. */
  lemma {:induction false} StripWithoutBrackets(s: string)
    requires '[' !in s
    ensures StripIndexes(s) == s
    decreases |s|
  {
    if s != [] {
      assert IndexLength(s) == 0;
      assert s[0] != '[' && '[' !in s[1..];
      StripWithoutBrackets(s[1..]);
      assert s == [s[0]] + s[1..];
    }
  }

  /** Text without an opening bracket passes through unchanged ahead of what follows. */
  lemma {:induction false} StripKeepsPlain(x: string, y: string)
    requires '[' !in x
    ensures StripIndexes(x + y) == x + StripIndexes(y)
    decreases |x|
  {
    if x != [] {
      var s := x + y;
      assert s[0] == x[0] && x[0] != '[';
      assert IndexLength(s) == 0;
      assert s[1..] == x[1..] + y;
      StripKeepsPlain(x[1..], y);
      var r := StripIndexes(y);
      assert StripIndexes(s) == [x[0]] + (x[1..] + r);
      assert [x[0]] + (x[1..] + r) == ([x[0]] + x[1..]) + r;
      assert [x[0]] + x[1..] == x;
    } else {
      assert x + y == y;
    }
  }

  /** A group of an index written in decimal is removed. */
  lemma StripDropsIndex(n: nat, y: string)
    ensures StripIndexes("[" + NatToString(n) + "]" + y) == StripIndexes(y)
  {
    StripDropsGroup(NatToString(n), y);
  }

  /** A bracketed run of digits is removed. */
  lemma StripDropsGroup(d: string, y: string)
    requires d != [] && AllDigits(d)
    ensures StripIndexes("[" + d + "]" + y) == StripIndexes(y)
  {
    var s := "[" + d + "]" + y;
    assert s[1..] == d + ("]" + y);
    DigitRunOf(d, "]" + y);
    assert s[1 + |d|] == ']';
    assert IndexLength(s) == |d| + 2;
    assert s[|d| + 2..] == y;
  }

  /** The digit run of digits followed by a non-digit is exactly those digits. */
  lemma {:induction false} DigitRunOf(d: string, y: string)
    requires AllDigits(d) && y != [] && !IsDigit(y[0])
    ensures DigitRun(d + y) == |d|
  {
    if d != [] {
      assert (d + y)[1..] == d[1..] + y;
      DigitRunOf(d[1..], y);
    }
  }

  /** A key with one index group loses the group and keeps the text around it. */
  lemma StripIndexedKey(key: string, n: nat, rest: string)
    requires '[' !in key && '[' !in rest
    ensures StripIndexes(key + ("[" + NatToString(n) + "]" + rest)) == key + rest
  {
    StripWithoutBrackets(rest);
    StripDropsIndex(n, rest);
    StripKeepsPlain(key, "[" + NatToString(n) + "]" + rest);
  }

  /** Several indexes in a row all go. */
  lemma StripNestedIndexes(key: string, n: nat, m: nat)
    requires '[' !in key
    ensures StripIndexes(key + (("[" + NatToString(n) + "]") + ("[" + NatToString(m) + "]"))) == key
  {
    var g := "[" + NatToString(m) + "]";
    StripDropsIndex(m, "");
    assert g + "" == g;
    StripDropsIndex(n, g);
    StripKeepsPlain(key, ("[" + NatToString(n) + "]") + g);
    assert key + [] == key;
  }

  /** The text is scanned once: a group that forms only after a removal is kept. */
  lemma StripScansOnce()
    ensures StripIndexes("[[1]2]") == "[2]"
  {
    var s := "[[1]2]";
    assert s[1..] == "[1]2]";
    assert IndexLength(s) == 0;
    StripDropsIndex(1, "2]");
    assert "[1]2]" == "[" + NatToString(1) + "]" + "2]";
    StripWithoutBrackets("2]");
  }

  /** No opening bracket in `s` is followed by digits alone, so nothing appended can close a group. */
  predicate NoOpenGroup(s: string)
  {
    forall i :: 0 <= i < |s| && s[i] == '[' ==> !AllDigits(s[i + 1..])
  }

  /** Text that leaves no group open is stripped on its own, whatever follows it. */
  lemma {:induction false} StripSplits(a: string, b: string)
    requires NoOpenGroup(a)
    ensures StripIndexes(a + b) == StripIndexes(a) + StripIndexes(b)
    decreases |a|
  {
    if a == [] {
      assert a + b == b;
    } else {
      var s := a + b;
      if a[0] == '[' {
        assert s[1..] == a[1..] + b;
        DigitRunStops(a[1..], b);
      }
      assert IndexLength(s) == IndexLength(a);
      var n := IndexLength(a);
      if n > 0 {
        assert s[n..] == a[n..] + b;
        NoOpenGroupSuffix(a, n);
        StripSplits(a[n..], b);
      } else {
        assert s[1..] == a[1..] + b;
        NoOpenGroupSuffix(a, 1);
        StripSplits(a[1..], b);
        var r := StripIndexes(b);
        assert StripIndexes(s) == [a[0]] + (StripIndexes(a[1..]) + r);
        assert StripIndexes(a) == [a[0]] + StripIndexes(a[1..]);
      }
    }
  }

  /** A suffix of text that leaves no group open leaves none open either. */
  lemma NoOpenGroupSuffix(a: string, n: nat)
    requires NoOpenGroup(a) && n <= |a|
    ensures NoOpenGroup(a[n..])
  {
    forall i | 0 <= i < |a[n..]| && a[n..][i] == '['
      ensures !AllDigits(a[n..][i + 1..])
    {
      assert a[n + i] == '[' && a[n..][i + 1..] == a[n + i + 1..];
    }
  }

  /** A digit run that ends inside `x` does not see what follows `x`. */
  lemma {:induction false} DigitRunStops(x: string, y: string)
    requires !AllDigits(x)
    ensures DigitRun(x + y) == DigitRun(x)
  {
    assert x != [];
    assert (x + y)[0] == x[0];
    if IsDigit(x[0]) {
      var k :| 0 <= k < |x| && !IsDigit(x[k]);
      assert x[1..][k - 1] == x[k];
      assert (x + y)[1..] == x[1..] + y;
      DigitRunStops(x[1..], y);
    }
  }

  /** Appending text that has no open group and holds a non-digit leaves no group open. */
  lemma NoOpenGroupAppend(a: string, b: string, j: nat)
    requires NoOpenGroup(b) && j < |b| && !IsDigit(b[j])
    ensures NoOpenGroup(a + b)
  {
    var s := a + b;
    forall i | 0 <= i < |s| && s[i] == '['
      ensures !AllDigits(s[i + 1..])
    {
      if i < |a| {
        assert s[i + 1..][|a| - i - 1 + j] == b[j];
      } else {
        assert s[i] == b[i - |a|] && s[i + 1..] == b[i - |a| + 1..];
      }
    }
  }

  /**
   * Text that leaves no group open, followed by text without brackets that starts with a
   * non-digit: the whole strips to the stripped head and the tail, and leaves no group open.
   */
  lemma AppendPlain(a: string, stripped: string, tail: string)
    requires NoOpenGroup(a) && StripIndexes(a) == stripped
    requires '[' !in tail && tail != [] && !IsDigit(tail[0])
    ensures StripIndexes(a + tail) == stripped + tail
    ensures NoOpenGroup(a + tail)
  {
    StripSplits(a, tail);
    StripWithoutBrackets(tail);
    assert NoOpenGroup(tail);
    NoOpenGroupAppend(a, tail, 0);
  }

  /** hasMatchingKeys: some error key, with its indexes stripped, is one of the keys asked about. */
  predicate HasMatchingKeys<V>(errors: map<string, V>, keysToCheck: seq<string>)
  {
    var flatKeys := set k | k in errors :: StripIndexes(k);
    exists f :: f in flatKeys && f in keysToCheck
  }

  /** The flattened keys are exactly the stripped error keys. */
  lemma HasMatchingKeysMeans<V>(errors: map<string, V>, keysToCheck: seq<string>)
    ensures HasMatchingKeys(errors, keysToCheck) <==> exists k :: k in errors && StripIndexes(k) in keysToCheck
  {
    if exists k :: k in errors && StripIndexes(k) in keysToCheck {
      var k :| k in errors && StripIndexes(k) in keysToCheck;
      var flatKeys := set k | k in errors :: StripIndexes(k);
      assert StripIndexes(k) in flatKeys;
    }
  }
}
