// The conversation id, derived from a conversation's opening messages, and the
// TTL- and LRU-bounded cache of per-conversation state.
module Conversations {
  import opened Basics
  import opened BlobStores
  import opened History

  // ---- the bytes hashed into a conversation id ----

  /** The first non-empty system and user contents. */
  datatype Opening = Opening(system: Option<string>, user: Option<string>)

  function FirstContent(ms: seq<ChatMessage>, role: Role): Option<string> {
    if ms == [] then None
    else if ms[0].role == role && ms[0].content != "" then Some(ms[0].content)
    else FirstContent(ms[1..], role)
  }

  function OpeningOf(ms: seq<ChatMessage>): Opening {
    Opening(FirstContent(ms, System), FirstContent(ms, User))
  }

  const SYSTEM_MARK: string := "system\0"
  const USER_MARK: string := "user\0"

  function Marked(mark: string, content: Option<string>): string {
    if content.None? then "" else mark + content.value
  }

  function PreHash(o: Opening): string {
    Marked(SYSTEM_MARK, o.system) + Marked(USER_MARK, o.user)
  }

  /** The two loops that feed the hash; wroteAny is false when nothing was fed. */
  method HashInput(ms: seq<ChatMessage>) returns (input: string, wroteAny: bool)
    ensures input == PreHash(OpeningOf(ms))
    ensures wroteAny <==> OpeningOf(ms) != Opening(None, None)
  {
    input, wroteAny := "", false;
    var roles, marks := [System, User], [SYSTEM_MARK, USER_MARK];
    var r := 0;
    while r < 2
      invariant 0 <= r <= 2
      invariant r == 0 ==> input == "" && !wroteAny
      invariant r == 1 ==>
          input == Marked(SYSTEM_MARK, FirstContent(ms, System)) && wroteAny == FirstContent(ms, System).Some?
      invariant r == 2 ==> input == PreHash(OpeningOf(ms)) && (wroteAny <==> OpeningOf(ms) != Opening(None, None))
    {
      var i, found := 0, false;
      ghost var was, had := input, wroteAny;
      while i < |ms| && !found
        invariant 0 <= i <= |ms|
        invariant !found ==>
            FirstContent(ms, roles[r]) == FirstContent(ms[i..], roles[r]) && input == was && wroteAny == had
        invariant found ==>
            && wroteAny && FirstContent(ms, roles[r]).Some?
            && input == was + marks[r] + FirstContent(ms, roles[r]).value
      {
        assert ms[i..][0] == ms[i] && ms[i..][1..] == ms[i + 1..];
        if ms[i].role == roles[r] && ms[i].content != "" {
          input := input + marks[r] + ms[i].content;
          wroteAny, found := true, true;
        }
        i := i + 1;
      }
      r := r + 1;
    }
  }

  lemma {:induction false} FirstContentAppend(u: seq<ChatMessage>, v: seq<ChatMessage>, role: Role)
    ensures FirstContent(u + v, role) ==
        if FirstContent(u, role).Some? then FirstContent(u, role) else FirstContent(v, role)
  {
    if u == [] {
      assert u + v == v;
    } else {
      assert (u + v)[0] == u[0] && (u + v)[1..] == u[1..] + v;
      FirstContentAppend(u[1..], v, role);
    }
  }

  /** A conversation keeps its hash input as it grows exactly when neither opening content
      is supplied only later. */
  lemma IdStableExactly(ms: seq<ChatMessage>, more: seq<ChatMessage>)
    ensures PreHash(OpeningOf(ms + more)) == PreHash(OpeningOf(ms)) <==>
            && (FirstContent(ms, System).Some? || FirstContent(more, System).None?)
            && (FirstContent(ms, User).Some? || FirstContent(more, User).None?)
  {
    FirstContentAppend(ms, more, System);
    FirstContentAppend(ms, more, User);
    var a, b := OpeningOf(ms), OpeningOf(ms + more);
    var p, q := PreHash(a), PreHash(b);
    if a.system.None? && b.system.Some? {
      assert q[0] == 's';
      assert p != [] ==> p[0] == 'u';
    } else if a.user.None? && b.user.Some? {
      assert |q| > |p|;
    }
  }

  /** An opening that can occur: some content, and none of it empty. */
  predicate Proper(o: Opening) {
    o != Opening(None, None) && o.system != Some("") && o.user != Some("")
  }

  predicate NulFree(content: Option<string>) {
    content.Some? ==> '\0' !in content.value
  }

  /** The system text could itself be read as a system text, a marker and a user text. */
  predicate Splits(s: string, i: nat) {
    0 < i && i + |USER_MARK| < |s| && s[i..i + |USER_MARK|] == USER_MARK
  }

  predicate Ambiguous(o: Opening) {
    o.system.Some? && (o.user.Some? || exists i: nat | i < |o.system.value| :: Splits(o.system.value, i))
  }

  lemma SystemFirst(o: Opening, p: Opening)
    requires Proper(o) && Proper(p) && PreHash(o) == PreHash(p)
    ensures o.system.Some? <==> p.system.Some?
    ensures o.system.Some? ==>
              o.system.value + Marked(USER_MARK, o.user) == p.system.value + Marked(USER_MARK, p.user)
  {
    var x, y := PreHash(o), PreHash(p);
    assert o.system.Some? ==> x[0] == 's' && x[|SYSTEM_MARK|..] == o.system.value + Marked(USER_MARK, o.user);
    assert p.system.Some? ==> y[0] == 's' && y[|SYSTEM_MARK|..] == p.system.value + Marked(USER_MARK, p.user);
    assert o.system.None? ==> x[0] == 'u';
    assert p.system.None? ==> y[0] == 'u';
  }

  lemma AmbiguousHasAnother(o: Opening) returns (p: Opening)
    requires Proper(o) && Ambiguous(o)
    ensures Proper(p) && p != o && PreHash(p) == PreHash(o)
  {
    var s := o.system.value;
    if o.user.Some? {
      p := Opening(Some(s + USER_MARK + o.user.value), None);
      assert SYSTEM_MARK + (s + USER_MARK + o.user.value) == SYSTEM_MARK + s + (USER_MARK + o.user.value);
    } else {
      var i: nat :| i < |s| && Splits(s, i);
      var u := s[i + |USER_MARK|..];
      p := Opening(Some(s[..i]), Some(u));
      assert s == s[..i] + s[i..i + |USER_MARK|] + u;
      assert SYSTEM_MARK + s[..i] + (USER_MARK + u) == SYSTEM_MARK + (s[..i] + USER_MARK + u);
    }
  }

  lemma SystemReadTwoWays(o: Opening, p: Opening)
    requires Proper(o) && Proper(p) && PreHash(p) == PreHash(o) && o.system.Some? && p.user.Some? && o.user.None?
    ensures Ambiguous(o)
  {
    SystemFirst(o, p);
    var s, t, i := o.system.value, p.system.value, |p.system.value|;
    assert s + "" == s && s == t + (USER_MARK + p.user.value);
    assert s[i..i + |USER_MARK|] == USER_MARK;
    assert Splits(s, i);
  }

  lemma UnambiguousIsAlone(o: Opening, p: Opening)
    requires Proper(o) && Proper(p) && PreHash(p) == PreHash(o)
    ensures o == p || Ambiguous(o)
  {
    SystemFirst(o, p);
    if o.system.None? {
      assert PreHash(o)[|USER_MARK|..] == o.user.value && PreHash(p)[|USER_MARK|..] == p.user.value;
    } else if o.user.None? {
      if p.user.Some? {
        SystemReadTwoWays(o, p);
      } else {
        assert o.system.value + "" == o.system.value && p.system.value + "" == p.system.value;
      }
    }
  }

  /** The hash input identifies an opening exactly when it is not ambiguous. */
  lemma UniqueUnlessAmbiguous(o: Opening)
    requires Proper(o)
    ensures Ambiguous(o) <==> exists p: Opening :: Proper(p) && p != o && PreHash(p) == PreHash(o)
  {
    if Ambiguous(o) {
      var p := AmbiguousHasAnother(o);
    }
    if p: Opening :| Proper(p) && p != o && PreHash(p) == PreHash(o) {
      UnambiguousIsAlone(o, p);
    }
  }

  /** Among NUL-free openings the hash input is equal only for equal openings. */
  lemma NulFreeOpeningsAreDistinguished(o: Opening, p: Opening)
    requires Proper(o) && Proper(p) && PreHash(o) == PreHash(p)
    requires NulFree(o.system) && NulFree(p.system)
    ensures o == p
  {
    SystemFirst(o, p);
    if o.system.None? {
      assert PreHash(o)[|USER_MARK|..] == o.user.value && PreHash(p)[|USER_MARK|..] == p.user.value;
    } else {
      SystemEnd(o.system.value, o.user);
      SystemEnd(p.system.value, p.user);
      var x, y := o.system.value + Marked(USER_MARK, o.user), p.system.value + Marked(USER_MARK, p.user);
      var n := |o.system.value|;
      assert o.system.value == x[..n] && p.system.value == y[..n];
      assert Marked(USER_MARK, o.user) == x[n..] && Marked(USER_MARK, p.user) == y[n..];
      assert o.user.Some? ==> x[n..][|USER_MARK|..] == o.user.value;
      assert p.user.Some? ==> y[n..][|USER_MARK|..] == p.user.value;
    }
  }

  /** Where the system text ends, read off the bytes: four before the first NUL, if there is one. */
  function FirstNul(x: string): nat {
    if x == "" || x[0] == '\0' then 0 else 1 + FirstNul(x[1..])
  }

  lemma {:induction false} FirstNulOfAppend(s: string, t: string)
    requires '\0' !in s
    ensures FirstNul(s + t) == |s| + FirstNul(t)
  {
    if s == "" {
      assert s + t == t;
    } else {
      assert (s + t)[0] == s[0] && (s + t)[1..] == s[1..] + t;
      FirstNulOfAppend(s[1..], t);
    }
  }

  lemma SystemEnd(s: string, user: Option<string>)
    requires '\0' !in s
    ensures var x := s + Marked(USER_MARK, user);
            (FirstNul(x) == |x| <==> user.None?) && |s| == if user.None? then |x| else FirstNul(x) - 4
  {
    FirstNulOfAppend(s, Marked(USER_MARK, user));
    if user.Some? {
      assert FirstNul(USER_MARK + user.value) == 4 by {
        FirstNulOfAppend("user", "\0" + user.value);
        assert "user" + ("\0" + user.value) == USER_MARK + user.value;
      }
    }
  }

  // ---- the id itself ----

  const ID_PREFIX: string := "cursor-conversation-"

  /** digest stands for the first 16 bytes of the hash; generated for a random message id, when one can be had. */
  function ConversationId(ms: seq<ChatMessage>, digest: string -> Bytes, generated: Option<string>): string {
    if OpeningOf(ms) == Opening(None, None) then
      ID_PREFIX + if generated.Some? then generated.value else "fallback"
    else ID_PREFIX + Hex(digest(PreHash(OpeningOf(ms))))
  }

  method ConversationIdFor(ms: seq<ChatMessage>, digest: string -> Bytes, generated: Option<string>)
    returns (id: string)
    ensures id == ConversationId(ms, digest, generated)
  {
    var input, wroteAny := HashInput(ms);
    if !wroteAny {
      return if generated.Some? then ID_PREFIX + generated.value else "cursor-conversation-fallback";
    }
    id := ID_PREFIX + Hex(digest(input));
  }

  lemma FirstContentIsProper(ms: seq<ChatMessage>, role: Role)
    ensures FirstContent(ms, role) != Some("")
  {
  }

  /** Where the digest tells the two hash inputs apart, conversations share an id only if they
      open with the same system and user texts. */
  lemma SameIdMeansSameOpening(ms: seq<ChatMessage>, ns: seq<ChatMessage>, digest: string -> Bytes, g: Option<string>,
        h: Option<string>)
    requires OpeningOf(ms) != Opening(None, None) && OpeningOf(ns) != Opening(None, None)
    requires NulFree(FirstContent(ms, System)) && NulFree(FirstContent(ns, System))
    requires digest(PreHash(OpeningOf(ms))) == digest(PreHash(OpeningOf(ns))) ==>
        PreHash(OpeningOf(ms)) == PreHash(OpeningOf(ns))
    ensures ConversationId(ms, digest, g) == ConversationId(ns, digest, h) <==> OpeningOf(ms) == OpeningOf(ns)
  {
    var o, p := OpeningOf(ms), OpeningOf(ns);
    if ConversationId(ms, digest, g) == ConversationId(ns, digest, h) {
      var x, y := Hex(digest(PreHash(o))), Hex(digest(PreHash(p)));
      assert (ID_PREFIX + x)[|ID_PREFIX|..] == x && (ID_PREFIX + y)[|ID_PREFIX|..] == y;
      HexInjective(digest(PreHash(o)), digest(PreHash(p)));
      FirstContentIsProper(ms, System);
      FirstContentIsProper(ms, User);
      FirstContentIsProper(ns, System);
      FirstContentIsProper(ns, User);
      NulFreeOpeningsAreDistinguished(o, p);
    }
  }

  /** A conversation with a user text keeps its id as it grows, unless its first system text only arrives later. */
  lemma IdKeptAsConversationGrows(ms: seq<ChatMessage>, more: seq<ChatMessage>, digest: string -> Bytes,
        g: Option<string>, h: Option<string>)
    requires FirstContent(ms, User).Some?
    requires FirstContent(ms, System).Some? || FirstContent(more, System).None?
    ensures ConversationId(ms + more, digest, g) == ConversationId(ms, digest, h)
  {
    FirstContentAppend(ms, more, System);
    FirstContentAppend(ms, more, User);
  }

  /** What an id looks like, by what the conversation opens with. */
  lemma IdByOpening(ms: seq<ChatMessage>, digest: string -> Bytes, generated: Option<string>)
    ensures var (s, u) := (FirstContent(ms, System), FirstContent(ms, User));
      var input := (if s.Some? then "system\0" + s.value else "") + (if u.Some? then "user\0" + u.value else "");
      ConversationId(ms, digest, generated) ==
        "cursor-conversation-" +
          if s.None? && u.None? then (if generated.Some? then generated.value else "fallback") else Hex(digest(input))
  {
  }

  predicate Silent(ms: seq<ChatMessage>, role: Role) {
    forall m :: m in ms ==> m.role != role || m.content == ""
  }

  /** Message k is the first of the role with any text, and this is its text. */
  predicate IsFirstText(ms: seq<ChatMessage>, role: Role, text: string, k: nat) {
    k < |ms| && ms[k].role == role && ms[k].content == text != "" && Silent(ms[..k], role)
  }

  lemma LaterIsFirstText(ms: seq<ChatMessage>, role: Role, text: string, k: nat)
    requires ms != [] && (ms[0].role != role || ms[0].content == "") && IsFirstText(ms[1..], role, text, k)
    ensures IsFirstText(ms, role, text, k + 1)
  {
    assert ms[..k + 1] == [ms[0]] + ms[1..][..k] && ms[k + 1] == ms[1..][k];
  }

  /** An opening text is the first non-empty one of its role. */
  lemma {:induction false} FirstContentExactly(ms: seq<ChatMessage>, role: Role)
    ensures FirstContent(ms, role).None? ==> Silent(ms, role)
    ensures FirstContent(ms, role).Some? ==> exists k: nat :: IsFirstText(ms, role, FirstContent(ms, role).value, k)
  {
    if ms != [] {
      if ms[0].role == role && ms[0].content != "" {
        assert ms[..0] == [] && FirstContent(ms, role) == Some(ms[0].content);
        assert IsFirstText(ms, role, FirstContent(ms, role).value, 0);
      } else {
        FirstContentExactly(ms[1..], role);
        if FirstContent(ms, role).Some? {
          var k: nat :| IsFirstText(ms[1..], role, FirstContent(ms, role).value, k);
          LaterIsFirstText(ms, role, FirstContent(ms, role).value, k);
        } else {
          forall m | m in ms ensures m.role != role || m.content == "" {
            assert m == ms[0] || m in ms[1..];
          }
          assert Silent(ms, role);
        }
      }
    }
  }
}
