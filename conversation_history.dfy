/**
 * The conversation history panel (`ConversationHistory`): a list of saved
 * conversations with save, delete, case-insensitive search and plain-text
 * export. Storage in `localStorage` is not part of this model; the list
 * is the panel's state.
 */
module ConversationHistory {
  import opened Text
  import opened Messages

  /** One saved conversation; `id` and the two dates come from the clock and are opaque here. */
  datatype Conversation = Conversation(
    id: string,
    title: string,
    messages: seq<Message>,
    createdAt: string,
    lastUpdated: string)

  /** `ys` is `xs` with some elements dropped and the rest kept in order. */
  predicate SubsequenceOf<T(==)>(ys: seq<T>, xs: seq<T>)
    decreases |xs|
  {
    if |ys| == 0 then true
    else if |xs| == 0 then false
    else if ys[0] == xs[0] then SubsequenceOf(ys[1..], xs[1..])
    else SubsequenceOf(ys, xs[1..])
  }

  /**
   * `xs.filter(keep)`: the elements `keep` accepts, in their order. It is a
   * subsequence of `xs`, holds only accepted elements, and holds each
   * accepted element exactly as often as `xs` does.
   */
  function Filter<T(==,!new)>(xs: seq<T>, keep: T -> bool): (ys: seq<T>)
    ensures SubsequenceOf(ys, xs)
    ensures forall i :: 0 <= i < |ys| ==> keep(ys[i])
    ensures forall x :: multiset(ys)[x] == if keep(x) then multiset(xs)[x] else 0
    ensures forall x :: x in xs && keep(x) ==> x in ys
    ensures forall y :: y in ys ==> y in xs
    decreases |xs|
  {
    if |xs| == 0 then []
    else
      var rest := Filter(xs[1..], keep);
      SubsequenceIn(rest, xs[1..]);
      assert xs == [xs[0]] + xs[1..];
      var ys := if keep(xs[0]) then [xs[0]] + rest else rest;
      assert multiset(xs) == multiset{xs[0]} + multiset(xs[1..]);
      assert multiset(ys) == if keep(xs[0]) then multiset{xs[0]} + multiset(rest) else multiset(rest);
      ys
  }

  /** Every element of a subsequence is an element of the sequence. */
  lemma {:induction false} SubsequenceIn<T>(ys: seq<T>, xs: seq<T>)
    requires SubsequenceOf(ys, xs)
    ensures forall y :: y in ys ==> y in xs
    decreases |xs|
  {
    if |ys| > 0 {
      if ys[0] == xs[0] {
        SubsequenceIn(ys[1..], xs[1..]);
        assert forall y :: y in ys ==> y == ys[0] || y in ys[1..];
      } else {
        SubsequenceIn(ys, xs[1..]);
      }
    }
  }

  /** Filtering with a test every element passes keeps the whole sequence. */
  lemma {:induction false} FilterAll<T(!new)>(xs: seq<T>, keep: T -> bool)
    requires forall x :: x in xs ==> keep(x)
    ensures Filter(xs, keep) == xs
    decreases |xs|
  {
    if |xs| > 0 {
      FilterAll(xs[1..], keep);
      assert [xs[0]] + xs[1..] == xs;
    }
  }

  /** Tests that agree on every element filter alike. */
  lemma {:induction false} FilterSame<T(!new)>(xs: seq<T>, f: T -> bool, g: T -> bool)
    requires forall x :: x in xs ==> f(x) == g(x)
    ensures Filter(xs, f) == Filter(xs, g)
    decreases |xs|
  {
    if |xs| > 0 {
      FilterSame(xs[1..], f, g);
    }
  }

  /** Filtering twice with the same test is filtering once. */
  lemma FilterTwice<T(!new)>(xs: seq<T>, keep: T -> bool)
    ensures Filter(Filter(xs, keep), keep) == Filter(xs, keep)
  {
    var ys := Filter(xs, keep);
    assert forall y :: y in ys ==> keep(y);
    FilterAll(ys, keep);
  }

  /**
   * The title of a new conversation: the first 50 characters of the first
   * message, then `...`. The `'New Conversation'` fallback of the source
   * is unreachable, since this string is never empty.
   */
  function Title(firstText: string): (t: string)
    ensures |t| == (if |firstText| <= 50 then |firstText| else 50) + 3
    ensures EndsWith(t, "...")
    ensures StartsWith(firstText, t[..|t| - 3])
    ensures |firstText| <= 50 ==> t == firstText + "..."
  {
    var head := Take(firstText, 50);
    var t := head + "...";
    assert t[..|t| - 3] == head;
    assert t[|t| - 3..] == "...";
    t
  }

  /**
   * The conversation that saving `messages` creates; `createdAt` and
   * `lastUpdated` are the two separate clock readings the source takes.
   */
  function NewConversation(messages: seq<Message>, id: string, createdAt: string, lastUpdated: string): (c: Conversation)
    requires |messages| > 0
    ensures c.messages == messages
    ensures c.title == Title(messages[0].text)
    ensures c.id == id && c.createdAt == createdAt && c.lastUpdated == lastUpdated
  {
    Conversation(id, Title(messages[0].text), messages, createdAt, lastUpdated)
  }

  /** `conversations.filter(c => c.id !== id)`. */
  function WithoutId(cs: seq<Conversation>, id: string): (r: seq<Conversation>)
    ensures SubsequenceOf(r, cs)
    ensures forall i :: 0 <= i < |r| ==> r[i].id != id
    ensures forall c :: multiset(r)[c] == if c.id != id then multiset(cs)[c] else 0
    ensures forall c :: c in cs && c.id != id ==> c in r
  {
    Filter(cs, (c: Conversation) => c.id != id)
  }

  /** Deleting an id no conversation has changes nothing. */
  lemma DeleteAbsent(cs: seq<Conversation>, id: string)
    requires forall c :: c in cs ==> c.id != id
    ensures WithoutId(cs, id) == cs
  {
    FilterAll(cs, (c: Conversation) => c.id != id);
  }

  /** Deleting the same id twice is deleting it once. */
  lemma DeleteIdempotent(cs: seq<Conversation>, id: string)
    ensures WithoutId(WithoutId(cs, id), id) == WithoutId(cs, id)
  {
    var r := WithoutId(cs, id);
    DeleteAbsent(r, id);
  }

  /**
   * The search test: the lower-cased title, or the lower-cased text of
   * some message, includes the lower-cased term.
   */
  predicate Matches(c: Conversation, term: string) {
    var t := ToLower(term);
    Contains(ToLower(c.title), t)
    || exists i :: 0 <= i < |c.messages| && Contains(ToLower(c.messages[i].text), t)
  }

  /** `filteredConversations`: the conversations that match the term, in stored order. */
  function Search(cs: seq<Conversation>, term: string): (r: seq<Conversation>)
    ensures SubsequenceOf(r, cs)
    ensures forall i :: 0 <= i < |r| ==> Matches(r[i], term)
    ensures forall c :: multiset(r)[c] == if Matches(c, term) then multiset(cs)[c] else 0
    ensures forall c :: c in cs && Matches(c, term) ==> c in r
  {
    Filter(cs, (c: Conversation) => Matches(c, term))
  }

  /** The empty search term keeps every conversation. */
  lemma EmptySearchKeepsAll(cs: seq<Conversation>)
    ensures Search(cs, "") == cs
  {
    forall c | c in cs ensures Matches(c, "") {
      ContainsEmpty(ToLower(c.title));
    }
    FilterAll(cs, (c: Conversation) => Matches(c, ""));
  }

  /** Search ignores letter case in the term. */
  lemma SearchIgnoresCase(cs: seq<Conversation>, term: string)
    ensures Search(cs, term) == Search(cs, ToLower(term))
  {
    ToLowerIdempotent(term);
    FilterSame(cs, (c: Conversation) => Matches(c, term), (c: Conversation) => Matches(c, ToLower(term)));
  }

  /** One line of the export: `You: text` for the user, `Nova: text` for the assistant. */
  function ExportLine(m: Message): (line: string)
    ensures m.isUser ==> line == "You: " + m.text
    ensures !m.isUser ==> line == "Nova: " + m.text
  {
    (if m.isUser then "You" else "Nova") + ": " + m.text
  }

  /** The export lines of `messages`, one per message, in order. */
  function ExportLines(messages: seq<Message>): (lines: seq<string>)
    ensures |lines| == |messages|
    ensures forall i :: 0 <= i < |lines| ==> lines[i] == ExportLine(messages[i])
  {
    seq(|messages|, i requires 0 <= i < |messages| => ExportLine(messages[i]))
  }

  /** `exportConversation`'s content: the export lines joined by a blank line. */
  function ExportContent(c: Conversation): string {
    Join(ExportLines(c.messages), "\n\n")
  }

  /**
   * The export starts with the first message's line and ends with the last
   * one's, with no separator before or after, and one blank-line
   * separator between each two lines.
   */
  lemma ExportShape(c: Conversation)
    requires |c.messages| > 0
    ensures StartsWith(ExportContent(c), ExportLine(c.messages[0]))
    ensures EndsWith(ExportContent(c), ExportLine(c.messages[|c.messages| - 1]))
    ensures |ExportContent(c)| == TotalLength(ExportLines(c.messages)) + 2 * (|c.messages| - 1)
  {
    var lines := ExportLines(c.messages);
    JoinEnds(lines, "\n\n");
    JoinLength(lines, "\n\n");
  }

  /** One more message adds one blank line and its own line to the export. */
  lemma ExportSnoc(c: Conversation, m: Message)
    requires |c.messages| > 0
    ensures ExportContent(c.(messages := c.messages + [m])) == ExportContent(c) + "\n\n" + ExportLine(m)
  {
    var lines := ExportLines(c.messages);
    assert ExportLines(c.messages + [m]) == lines + [ExportLine(m)];
    JoinSnoc(lines, ExportLine(m), "\n\n");
  }

  /** A conversation with no messages exports as the empty text. */
  lemma ExportEmpty(c: Conversation)
    requires |c.messages| == 0
    ensures ExportContent(c) == ""
  {
  }

  /** The download's file name: `nova-conversation-` + the first 10 characters of the creation date + `.txt`. */
  function ExportFileName(createdAt: string): (name: string)
    ensures StartsWith(name, "nova-conversation-") && EndsWith(name, ".txt")
    ensures |name| == 22 + (if |createdAt| <= 10 then |createdAt| else 10)
    ensures name[18..|name| - 4] == Take(createdAt, 10)
  {
    var name := "nova-conversation-" + Take(createdAt, 10) + ".txt";
    assert name[..18] == "nova-conversation-";
    assert name[|name| - 4..] == ".txt";
    name
  }

  class History {
    /** The saved conversations, oldest first. */
    var conversations: seq<Conversation>
    /** The search box's text. */
    var searchTerm: string

    constructor ()
      ensures conversations == [] && searchTerm == ""
    {
      conversations := [];
      searchTerm := "";
    }

    /**
     * `saveCurrentConversation`: with no current messages nothing happens;
     * otherwise exactly one conversation is appended after the others, and
     * `saved` (the call of `onSaveConversation`) is true.
     */
    method SaveCurrentConversation(currentMessages: seq<Message>, id: string, createdAt: string, lastUpdated: string)
      returns (saved: bool)
      modifies this
      ensures saved <==> |currentMessages| > 0
      ensures saved ==> conversations == old(conversations) + [NewConversation(currentMessages, id, createdAt, lastUpdated)]
      ensures !saved ==> conversations == old(conversations)
      ensures searchTerm == old(searchTerm)
    {
      if |currentMessages| == 0 {
        return false;
      }
      var c := NewConversation(currentMessages, id, createdAt, lastUpdated);
      conversations := conversations + [c];
      saved := true;
    }

    /** `deleteConversation`: every conversation with this id goes, the rest stay in order. */
    method DeleteConversation(id: string)
      modifies this
      ensures conversations == WithoutId(old(conversations), id)
      ensures searchTerm == old(searchTerm)
    {
      conversations := WithoutId(conversations, id);
    }

    /** The search box's `onChange`. */
    method SetSearchTerm(term: string)
      modifies this
      ensures searchTerm == term
      ensures conversations == old(conversations)
    {
      searchTerm := term;
    }

    /** The list the panel shows: the stored conversations the current term matches. */
    function Filtered(): (r: seq<Conversation>)
      reads this
      ensures SubsequenceOf(r, conversations)
      ensures forall c :: c in r ==> c in conversations && Matches(c, searchTerm)
      ensures forall c :: c in conversations && Matches(c, searchTerm) ==> c in r
      ensures forall c :: multiset(r)[c] == if Matches(c, searchTerm) then multiset(conversations)[c] else 0
    {
      Search(conversations, searchTerm)
    }

    /** Clicking a listed conversation hands its messages to `onLoadConversation`. */
    function Load(k: nat): (messages: seq<Message>)
      reads this
      requires k < |Filtered()|
      ensures messages == Filtered()[k].messages
      ensures exists c :: c in conversations && c.messages == messages
    {
      var c := Filtered()[k];
      assert c in Filtered();
      c.messages
    }
  }
}
