/** Contact links (tintin-cli/src/main.rs): printing one, and reading one back. */
module Contacts {
  import opened Crypto
  import opened Hex

  const PREFIX := "tintin://add-contact?"

  datatype Contact = Contact(user: string, key: string)

  function Print(c: Contact): string {
    PREFIX + ("user_id=" + c.user + "&" + ("key=" + c.key))
  }

  /** The position of the first occurrence of a character, or the length. */
  function Find(s: string, c: char): (n: nat)
    ensures n <= |s|
    ensures forall i :: 0 <= i < n ==> s[i] != c
    ensures n < |s| ==> s[n] == c
  {
    if s == "" || s[0] == c then 0 else 1 + Find(s[1..], c)
  }

  /** The parts of a string between ampersands; there is always at least one. */
  function Split(s: string): (parts: seq<string>)
    ensures parts != []
    decreases |s|
  {
    var n := Find(s, '&');
    if n == |s| then [s] else [s[..n]] + Split(s[n + 1..])
  }

  /** A part cut at its first equals sign. */
  function Field(part: string): Option<(string, string)> {
    var n := Find(part, '=');
    if n == |part| then None else Some((part[..n], part[n + 1..]))
  }

  /** The two values looked for, as far as they have been found. */
  datatype Seen = Seen(user: Option<string>, key: Option<string>)

  function Note(seen: Seen, name: string, value: string): Seen {
    if name == "user_id" then seen.(user := Some(value))
    else if name == "key" then seen.(key := Some(value))
    else seen
  }

  /** Later values replace earlier ones; a part without an equals sign spoils the whole link. */
  function Collect(parts: seq<string>, seen: Seen): Option<Seen>
    decreases |parts|
  {
    if parts == [] then Some(seen)
    else
      match Field(parts[0])
      case None => None
      case Some((name, value)) => Collect(parts[1..], Note(seen, name, value))
  }

  function Parse(uri: string): Option<Contact> {
    if !(PREFIX <= uri) then None
    else
      match Collect(Split(uri[|PREFIX|..]), Seen(None, None))
      case Some(Seen(Some(user), Some(key))) => Some(Contact(user, key))
      case _ => None
  }

  method ParseContactUri(uri: string) returns (contact: Option<Contact>)
    ensures contact == Parse(uri)
  {
    if !(PREFIX <= uri) {
      return None;
    }
    var user, key := None, None;
    var parts := Split(uri[|PREFIX|..]);
    for i := 0 to |parts|
      invariant Collect(parts, Seen(None, None)) == Collect(parts[i..], Seen(user, key))
    {
      assert parts[i..][1..] == parts[i + 1..];
      var field := Field(parts[i]);
      if field.None? {
        return None;
      }
      var (name, value) := field.value;
      if name == "user_id" {
        user := Some(value);
      } else if name == "key" {
        key := Some(value);
      }
    }
    if user.None? || key.None? {
      return None;
    }
    return Some(Contact(user.value, key.value));
  }

  // ── Round trip ──────────────────────────────────────────────────────────

  lemma {:induction false} FindIn(s: string, c: char, rest: string)
    requires c !in s
    ensures Find(s + [c] + rest, c) == |s|
  {
    if s != "" {
      FindIn(s[1..], c, rest);
      assert (s + [c] + rest)[1..] == s[1..] + [c] + rest;
    }
  }

  /** Two parts joined by an ampersand come apart again. */
  lemma {:induction false} SplitPair(a: string, b: string)
    requires '&' !in a && '&' !in b
    ensures Split(a + "&" + b) == [a, b]
  {
    FindIn(a, '&', b);
    var s := a + "&" + b;
    assert s[..|a|] == a && s[|a| + 1..] == b;
    assert Find(b, '&') == |b|;
  }

  lemma {:induction false} FieldOf(name: string, value: string)
    requires '=' !in name
    ensures Field(name + "=" + value) == Some((name, value))
  {
    FindIn(name, '=', value);
    var s := name + "=" + value;
    assert s[..|name|] == name && s[|name| + 1..] == value;
  }

  lemma {:induction false} CollectPair(a: string, b: string, name: string, value: string, name': string, value': string,
                                       seen: Seen)
    requires Field(a) == Some((name, value)) && Field(b) == Some((name', value'))
    ensures Collect([a, b], seen) == Some(Note(Note(seen, name, value), name', value'))
  {
    assert [a, b][1..] == [b] && [b][1..] == [];
    assert Collect([b], Note(seen, name, value)) == Collect([], Note(Note(seen, name, value), name', value'));
  }

  lemma {:induction false} PrintedParts(c: Contact)
    requires '&' !in c.user && '&' !in c.key
    ensures Parse(Print(c)) == Some(c)
  {
    var a, b := "user_id=" + c.user, "key=" + c.key;
    assert Print(c) == PREFIX + (a + "&" + b) && Print(c)[|PREFIX|..] == a + "&" + b;
    SplitPair(a, b);
    FieldOf("user_id", c.user);
    FieldOf("key", c.key);
    assert a == "user_id" + "=" + c.user && b == "key" + "=" + c.key;
    CollectPair(a, b, "user_id", c.user, "key", c.key, Seen(None, None));
  }

  ghost predicate Clean(seen: Seen) {
    && (seen.user.Some? ==> '&' !in seen.user.value)
    && (seen.key.Some? ==> '&' !in seen.key.value)
  }

  lemma {:induction false} SplitClean(s: string)
    ensures forall i :: 0 <= i < |Split(s)| ==> '&' !in Split(s)[i]
    decreases |s|
  {
    var n := Find(s, '&');
    if n < |s| {
      SplitClean(s[n + 1..]);
    }
  }

  lemma {:induction false} CollectClean(parts: seq<string>, seen: Seen)
    requires Clean(seen) && forall i :: 0 <= i < |parts| ==> '&' !in parts[i]
    ensures Collect(parts, seen).Some? ==> Clean(Collect(parts, seen).value)
    decreases |parts|
  {
    if parts != [] && Field(parts[0]).Some? {
      var (name, value) := Field(parts[0]).value;
      assert forall i :: 0 <= i < |value| ==> value[i] in parts[0];
      CollectClean(parts[1..], Note(seen, name, value));
    }
  }

  /** Nothing read from a link contains an ampersand. */
  lemma {:induction false} ParsedClean(uri: string)
    ensures Parse(uri).Some? ==> '&' !in Parse(uri).value.user && '&' !in Parse(uri).value.key
  {
    if PREFIX <= uri {
      SplitClean(uri[|PREFIX|..]);
      CollectClean(Split(uri[|PREFIX|..]), Seen(None, None));
    }
  }

  /** Printing a contact and reading the link returns the contact exactly when neither part
      contains an ampersand. */
  lemma {:induction false} ContactRoundTrip(c: Contact)
    ensures Parse(Print(c)) == Some(c) <==> '&' !in c.user && '&' !in c.key
  {
    ParsedClean(Print(c));
    if '&' !in c.user && '&' !in c.key {
      PrintedParts(c);
    }
  }

  /** The link of `contact_uri`, whose key is printed in hexadecimal: it is read back as the same
      user and the same key bytes exactly when the user id contains no ampersand. */
  lemma {:induction false} OwnLinkRoundTrip(user: string, key: seq<Byte>)
    ensures var back := Parse(Print(Contact(user, Encode(key))));
      (back.Some? && back.value.user == user && Decode(back.value.key) == Some(key)) <==> '&' !in user
  {
    RoundTrip(key);
    ParsedClean(Print(Contact(user, Encode(key))));
    assert !IsDigit('&');
    ContactRoundTrip(Contact(user, Encode(key)));
  }

  /** A link that can be read can be printed again and reads the same. */
  lemma {:induction false} ReprintedReadsSame(uri: string)
    requires Parse(uri).Some?
    ensures Parse(Print(Parse(uri).value)) == Parse(uri)
  {
    ParsedClean(uri);
    ContactRoundTrip(Parse(uri).value);
  }

  // ── Exactly what is read ────────────────────────────────────────────────

  /** The link as others see it. */
  lemma {:induction false} PrintedLink(c: Contact)
    ensures Print(c) == "tintin://add-contact?user_id=" + c.user + "&key=" + c.key
  {
    assert "tintin://add-contact?" + "user_id=" == "tintin://add-contact?user_id=";
    assert "&" + "key=" == "&key=";
    assert PREFIX + ("user_id=" + c.user + "&" + ("key=" + c.key)) ==
           (PREFIX + "user_id=") + c.user + ("&" + "key=") + c.key;
  }

  /** The parts with ampersands between them. */
  function WithAmpersands(parts: seq<string>): string
    requires parts != []
  {
    if |parts| == 1 then parts[0] else parts[0] + "&" + WithAmpersands(parts[1..])
  }

  /** Splitting is undone by putting the ampersands back, and no part contains one. */
  lemma {:induction false} SplitExactly(s: string)
    ensures WithAmpersands(Split(s)) == s
    ensures forall i :: 0 <= i < |Split(s)| ==> '&' !in Split(s)[i]
    decreases |s|
  {
    SplitClean(s);
    var n := Find(s, '&');
    if n < |s| {
      SplitExactly(s[n + 1..]);
      assert s == s[..n] + "&" + s[n + 1..];
    }
  }

  /** The value of the last part that begins with a name and an equals sign. */
  function LastValue(parts: seq<string>, name: string): Option<string> {
    if parts == [] then None
    else
      var later := LastValue(parts[1..], name);
      if later.Some? then later
      else if name + "=" <= parts[0] then Some(parts[0][|name| + 1..])
      else None
  }

  predicate AllFields(parts: seq<string>) {
    forall i :: 0 <= i < |parts| ==> '=' in parts[i]
  }

  lemma {:induction false} FieldExactly(part: string, name: string)
    requires '=' !in name
    ensures Field(part).Some? <==> '=' in part
    ensures name + "=" <= part <==> Field(part).Some? && Field(part).value.0 == name
    ensures name + "=" <= part ==> Field(part).value.1 == part[|name| + 1..]
  {
    if name + "=" <= part {
      assert part == name + "=" + part[|name| + 1..];
      FieldOf(name, part[|name| + 1..]);
    }
    if Field(part).Some? && Field(part).value.0 == name {
      assert part[..|name| + 1] == name + "=";
    }
  }

  /** The later of two values, if any. */
  function Or(later: Option<string>, earlier: Option<string>): Option<string> {
    if later.Some? then later else earlier
  }

  lemma {:induction false} CollectExactly(parts: seq<string>, seen: Seen)
    ensures Collect(parts, seen) ==
            if AllFields(parts)
            then Some(Seen(Or(LastValue(parts, "user_id"), seen.user), Or(LastValue(parts, "key"), seen.key)))
            else None
    decreases |parts|
  {
    if parts != [] {
      FieldExactly(parts[0], "user_id");
      FieldExactly(parts[0], "key");
      assert AllFields(parts) <==> '=' in parts[0] && AllFields(parts[1..]);
      if Field(parts[0]).Some? {
        var (name, value) := Field(parts[0]).value;
        CollectExactly(parts[1..], Note(seen, name, value));
      }
    }
  }

  /** A link is read as a contact if and only if it has the scheme and path of contact links, every part
      of the rest between ampersands contains an equals sign, and the contact's user and key are the
      values of the last parts that give a user id and a key. */
  lemma {:induction false} ParseExactly(uri: string, c: Contact)
    ensures Parse(uri) == Some(c) <==>
            && "tintin://add-contact?" <= uri
            && var parts := Split(uri[21..]);
               && AllFields(parts)
               && LastValue(parts, "user_id") == Some(c.user) && LastValue(parts, "key") == Some(c.key)
  {
    if PREFIX <= uri {
      CollectExactly(Split(uri[|PREFIX|..]), Seen(None, None));
    }
  }
}
