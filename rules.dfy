/** The two concrete rules the loader can bind to an extension point:
    PluginCountConstraint and PluginIdFilter. */
module PluginRules {
  import opened Outcomes
  import opened Decimal
  import opened AddinRegistry

  const MessagePrefix := "The number of plugins is constrained to the interval ["

  /** PluginCountConstraint: the number of candidates must lie in [min, max]. */
  datatype CountConstraint = CountConstraint(min: int, max: int) {

    /** Names the interval: the fixed prefix, the two bounds and a closing bracket. */
    function Message(): (m: string)
    {
      MessagePrefix + IntToString(min) + ", " + IntToString(max) + "]"
    }

    /** Counts the candidates registered under `ext`; throws when the count is out
        of range and otherwise returns true. It never returns false. */
    function Apply<T>(catalog: Catalog<T>, ext: string): (r: Result<bool>)
      ensures r.Failure? <==> |GetExtensionNodes(catalog, ext)| < min || |GetExtensionNodes(catalog, ext)| > max
      ensures r.Failure? ==> r.error == ConstraintViolated(Message())
      ensures r.Success? ==> r.value
    {
      var count := |GetExtensionNodes(catalog, ext)|;
      if count < min || count > max then Failure(ConstraintViolated(Message())) else Success(true)
    }
  }

  /** The two-argument constructor PluginCountConstraint(minimum, maximum). */
  function Between(minimum: int, maximum: int): (c: CountConstraint)
    ensures c.min == minimum && c.max == maximum
  {
    CountConstraint(minimum, maximum)
  }

  /** The one-argument constructor PluginCountConstraint(exact). */
  function Exact(exact: int): (c: CountConstraint)
    ensures c.min == exact && c.max == exact
  {
    CountConstraint(exact, exact)
  }

  /** An exact constraint passes precisely on the exact count. */
  lemma ExactPassesOnlyOnCount<T>(exact: int, catalog: Catalog<T>, ext: string)
    ensures Exact(exact).Apply(catalog, ext).Success? <==> |GetExtensionNodes(catalog, ext)| == exact
  {
  }

  /** A rendered int: an optional minus sign, then digits. */
  predicate IsNumeral(s: string) {
    |s| > 0 && (s[0] == '-' || IsDigit(s[0])) && forall k :: 0 < k < |s| ==> IsDigit(s[k])
  }

  /** Reads the interval back out of a violation message, or None when the text
      does not have the message's layout. */
  function ParseMessage(m: string): (r: Option<CountConstraint>) {
    var p := |MessagePrefix|;
    if |m| < p + 1 || m[..p] != MessagePrefix || m[|m| - 1] != ']' then None
    else
      var body := m[p..|m| - 1];
      var k := CommaIndex(body);
      if k + 1 >= |body| || body[k + 1] != ' ' then None
      else if IsNumeral(body[..k]) && IsNumeral(body[k + 2..]) then
        Some(CountConstraint(ParseInt(body[..k]), ParseInt(body[k + 2..])))
      else None
  }

  /** Where the parts of a message-shaped text sit, for any prefix `p`. */
  lemma MessageLayout(p: string, lo: string, hi: string)
    requires forall k :: 0 <= k < |lo| ==> lo[k] != ','
    ensures var m := p + lo + ", " + hi + "]";
            var body := m[|p|..|m| - 1];
            && |m| >= |p| + 1 && m[..|p|] == p && m[|m| - 1] == ']'
            && CommaIndex(body) == |lo| && |lo| + 1 < |body| && body[|lo| + 1] == ' '
            && body[..|lo|] == lo && body[|lo| + 2..] == hi
  {
    var m := p + lo + ", " + hi + "]";
    var body := lo + [','] + (" " + hi);
    assert m == p + body + "]";
    assert m[|p|..|m| - 1] == body;
    CommaIndexAfter(lo, " " + hi);
    assert body[..|lo|] == lo;
    assert body[|lo| + 2..] == hi;
  }

  /** The violation message carries the whole interval: reading it back gives the
      constraint's bounds. */
  lemma MessageRoundTrip(c: CountConstraint)
    ensures ParseMessage(c.Message()) == Some(c)
  {
    var lo, hi := IntToString(c.min), IntToString(c.max);
    var m := c.Message();
    assert m == MessagePrefix + lo + ", " + hi + "]";
    MessageLayout(MessagePrefix, lo, hi);
    var body := m[|MessagePrefix|..|m| - 1];
    assert CommaIndex(body) == |lo| && body[..|lo|] == lo && body[|lo| + 2..] == hi;
    assert IsNumeral(lo) && IsNumeral(hi);
    ParseIntToString(c.min);
    ParseIntToString(c.max);
  }

  /** The violation message names the interval: two constraints with the same
      message have the same bounds. */
  lemma MessageDeterminesBounds(c: CountConstraint, d: CountConstraint)
    requires c.Message() == d.Message()
    ensures c == d
  {
    MessageRoundTrip(c);
    MessageRoundTrip(d);
  }

  /** Index of the first comma in `s`, or |s| when there is none. */
  function CommaIndex(s: string): (k: nat)
    ensures k <= |s|
    ensures forall j :: 0 <= j < k ==> s[j] != ','
  {
    if s == [] || s[0] == ',' then 0 else 1 + CommaIndex(s[1..])
  }

  lemma {:induction false} CommaIndexAfter(a: string, b: string)
    requires forall k :: 0 <= k < |a| ==> a[k] != ','
    ensures CommaIndex(a + [','] + b) == |a|
  {
    if a != [] {
      assert (a + [','] + b)[1..] == a[1..] + [','] + b;
      CommaIndexAfter(a[1..], b);
    }
  }

  /** PluginIdFilter: keeps a node exactly when its Id equals the target. */
  datatype IdFilter = IdFilter(id: string) {
    /** Exact, ordinal string equality: no case folding and no trimming. */
    predicate Apply<T>(node: Node<T>): (keep: bool)
      ensures keep <==> node.id == id
    {
      node.id == id
    }
  }
}
