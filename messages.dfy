/**
 * The outbound message sanitiser `clean_messages` (app.py:44-56).
 *
 * A message list holds dictionaries and, after a tool round, objects of the
 * completion client's own message class. The sanitiser drops every item that
 * is not a dictionary, cuts each dictionary down to the keys `role`, `content`
 * and `tool_call_id`, and drops a `tool` message that has no `tool_call_id`.
 */
module Messages {
  import opened Sequences

  /** The values a message dictionary holds. */
  datatype Value = Str(s: string) | Num(n: int) | Bool(b: bool) | Null

  /** A message dictionary. */
  type Message = map<string, Value>

  /** An element of the outbound list: a dictionary, or any other object (named by its kind). */
  datatype Item = NonDict(kind: string) | Dict(fields: Message)

  /** The keys a cleaned message may keep. */
  const Allowed: set<string> := {"role", "content", "tool_call_id"}

  /** A message the sanitiser refuses: role `tool` and no `tool_call_id`. */
  predicate IsOrphanTool(m: Message) {
    "role" in m && m["role"] == Str("tool") && "tool_call_id" !in m
  }

  /** The dictionary restricted to the allowed keys, values unchanged. */
  function Project(m: Message): (r: Message)
    ensures r.Keys == m.Keys * Allowed
    ensures forall k :: k in r ==> r[k] == m[k]
  {
    map k | k in m && k in Allowed :: m[k]
  }

  /** Whether the sanitiser keeps this item. */
  predicate Kept(item: Item) {
    item.Dict? && !IsOrphanTool(Project(item.fields))
  }

  /** A message the sanitiser leaves as it is. */
  predicate IsClean(m: Message) {
    m.Keys <= Allowed && !IsOrphanTool(m)
  }

  /** The list the sanitiser builds, one kept item after another. */
  function Cleaned(items: seq<Item>): (r: seq<Message>)
    ensures |r| <= |items|
    ensures forall j :: 0 <= j < |r| ==> IsClean(r[j])
  {
    if items == [] then []
    else
      var last := items[|items| - 1];
      Cleaned(items[..|items| - 1]) + (if Kept(last) then [Project(last.fields)] else [])
  }

  /** Messages put back into an outbound list. */
  function AsItems(ms: seq<Message>): (r: seq<Item>)
    ensures |r| == |ms|
    ensures forall j :: 0 <= j < |r| ==> r[j] == Dict(ms[j])
  {
    seq(|ms|, j requires 0 <= j < |ms| => Dict(ms[j]))
  }

  /** clean_messages: a loop that appends each kept, projected dictionary. */
  method CleanMessages(messages: seq<Item>) returns (cleaned: seq<Message>)
    ensures cleaned == Cleaned(messages)
  {
    cleaned := [];
    for i := 0 to |messages|
      invariant cleaned == Cleaned(messages[..i])
    {
      assert messages[..i + 1][..i] == messages[..i];
      var m := messages[i];
      if !m.Dict? {
        continue;
      }
      var msg := Project(m.fields);
      if "role" in msg && msg["role"] == Str("tool") && "tool_call_id" !in msg {
        continue;
      }
      cleaned := cleaned + [msg];
    }
    assert messages[..|messages|] == messages;
  }

  /** The output is exactly the kept items, projected, in their original order. */
  lemma {:induction false} CleanedKeepsExactly(items: seq<Item>)
    ensures |Cleaned(items)| == |Positions(items, Kept)|
    ensures forall j :: 0 <= j < |Cleaned(items)| ==>
      Cleaned(items)[j] == Project(items[Positions(items, Kept)[j]].fields)
  {
    if items != [] {
      var prefix := items[..|items| - 1];
      CleanedKeepsExactly(prefix);
      assert forall i :: 0 <= i < |prefix| ==> prefix[i] == items[i];
    }
  }

  /** An item survives exactly when it is a dictionary and not a `tool` message lacking `tool_call_id`. */
  lemma KeptIff(item: Item)
    ensures Kept(item) <==>
      item.Dict? && !("role" in item.fields && item.fields["role"] == Str("tool") && "tool_call_id" !in item.fields)
  {
    if item.Dict? {
      var p := Project(item.fields);
      assert "role" in p <==> "role" in item.fields;
      assert "tool_call_id" in p <==> "tool_call_id" in item.fields;
    }
  }

  /** Cleaning distributes over concatenation, so relative order is kept. */
  lemma {:induction false} CleanedAppend(a: seq<Item>, b: seq<Item>)
    ensures Cleaned(a + b) == Cleaned(a) + Cleaned(b)
  {
    if b == [] {
      assert a + b == a;
    } else {
      var b' := b[..|b| - 1];
      CleanedAppend(a, b');
      assert (a + b)[..|a + b| - 1] == a + b';
    }
  }

  /** Already-clean messages pass through unchanged. */
  lemma {:induction false} CleanedFixpoint(ms: seq<Message>)
    requires forall j :: 0 <= j < |ms| ==> IsClean(ms[j])
    ensures Cleaned(AsItems(ms)) == ms
  {
    if ms != [] {
      var n := |ms| - 1;
      CleanedFixpoint(ms[..n]);
      assert AsItems(ms)[..n] == AsItems(ms[..n]);
      assert Project(ms[n]) == ms[n];
    }
  }

  /** Cleaning twice is cleaning once. */
  lemma {:induction false} CleanedIdempotent(items: seq<Item>)
    ensures Cleaned(AsItems(Cleaned(items))) == Cleaned(items)
  {
    CleanedFixpoint(Cleaned(items));
  }

  /** An object that is not a dictionary, appended to the list, never reaches the output. */
  lemma CleanedDropsNonDict(items: seq<Item>, kind: string)
    ensures Cleaned(items + [NonDict(kind)]) == Cleaned(items)
  {
    assert (items + [NonDict(kind)])[..|items|] == items;
  }
}
