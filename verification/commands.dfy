/**
 * The text handling of the message handler in src/index.ts: recognising a
 * command behind the prefix, splitting it into a command word and arguments,
 * and turning the arguments of `play` into a resolver query.
 */
module Commands {
  import opened Wrappers
  import opened Text

  /** A prefixed message: the lower-cased command word and the remaining words. */
  datatype Parsed = Parsed(command: string, args: seq<string>)

  /** The commands the handler dispatches on; anything else is ignored. */
  datatype Command = Ping | Join | Play(args: seq<string>) | Unknown

  /** JavaScript's `s.slice(1)`: everything after the first character. */
  function DropFirst(s: string): string {
    if |s| == 0 then s else s[1..]
  }

  /**
   * Messages that do not start with the prefix are ignored. Otherwise exactly
   * one character is dropped (whatever the prefix's length), the rest is split
   * on single spaces, the first piece lower-cased is the command and the other
   * pieces are the arguments: the arguments joined with one space are exactly
   * the text after the first space.
   */
  function ParseCommand(prefix: string, content: string): (r: Option<Parsed>)
    ensures r.None? <==> !StartsWith(content, prefix)
    ensures r.Some? ==>
      var body := DropFirst(content);
      var i := SpaceIndex(body);
      && r.value.command == Lower(body[..i])
      && (forall k :: 0 <= k < |r.value.command| ==> !IsUpper(r.value.command[k]))
      && (i == |body| ==> r.value.args == [])
      && (i < |body| ==> r.value.args == Split(body[i + 1..]) && JoinWords(r.value.args) == body[i + 1..])
      && forall k :: 0 <= k < |r.value.args| ==> ' ' !in r.value.args[k]
  {
    if !StartsWith(content, prefix) then None
    else
      var body := DropFirst(content);
      var words := Split(body);
      ArgumentsAfterFirstSpace(body);
      Some(Parsed(Lower(words[0]), words[1..]))
  }

  /** The pieces after the first are the pieces of the text after the first space. */
  lemma ArgumentsAfterFirstSpace(body: string)
    ensures SpaceIndex(body) < |body| ==>
      && Split(body)[1..] == Split(body[SpaceIndex(body) + 1..])
      && JoinWords(Split(body)[1..]) == body[SpaceIndex(body) + 1..]
  {
    if SpaceIndex(body) < |body| {
      SplitTail(body);
      JoinSplit(body[SpaceIndex(body) + 1..]);
    }
  }

  /**
   * The `switch` on the command word: exactly `ping`, `join` and `play` are
   * commands, `play` carries the arguments, and every other word is ignored.
   */
  function Classify(p: Parsed): (c: Command)
    ensures c == Ping <==> p.command == "ping"
    ensures c == Join <==> p.command == "join"
    ensures c.Play? <==> p.command == "play"
    ensures c.Play? ==> c.args == p.args
    ensures c == Unknown <==> p.command !in {"ping", "join", "play"}
  {
    match p.command
    case "ping" => Ping
    case "join" => Join
    case "play" => Play(p.args)
    case _ => Unknown
  }

  /**
   * With a one-character prefix (one UTF-16 unit, so that JavaScript's
   * `slice(1)` removes all of it), `<prefix><word> <query>` is the command
   * `Lower(word)` and its arguments join back to exactly `query`; in
   * particular any capitalisation of `play` selects the play command.
   */
  lemma ParsePlayQuery(prefix: string, word: string, query: string)
    requires |prefix| == 1 && prefix[0] as int < 0x10000
    requires ' ' !in word
    ensures var r := ParseCommand(prefix, prefix + (word + " " + query));
      && r.Some?
      && r.value.command == Lower(word)
      && JoinWords(r.value.args) == query
      && (Lower(word) == "play" ==> Classify(r.value) == Play(r.value.args))
  {
    var body := word + " " + query;
    var content := prefix + body;
    assert content[..1] == prefix;
    assert DropFirst(content) == body;
    SpaceIndexAfterWord(word, query);
    assert body[..|word|] == word;
    assert body[|word| + 1..] == query;
  }

  predicate IsUrl(q: string) {
    StartsWith(q, "http://") || StartsWith(q, "https://")
  }

  /**
   * The query handed to the resolver: the text itself when it is an http(s)
   * URL, otherwise a YouTube search for it.
   */
  function NormaliseQuery(q: string): (r: string)
    ensures IsUrl(q) ==> r == q
    ensures !IsUrl(q) ==> r == "ytsearch:" + q
  {
    if IsUrl(q) then q else "ytsearch:" + q
  }

  /**
   * The resolver always receives either a URL or a `ytsearch:` query, it
   * receives a URL exactly when the user typed one, and the query always ends
   * with the user's text.
   */
  lemma NormalisedQueryIsUrlOrSearch(q: string)
    ensures IsUrl(NormaliseQuery(q)) <==> IsUrl(q)
    ensures IsUrl(NormaliseQuery(q)) || StartsWith(NormaliseQuery(q), "ytsearch:")
    ensures |q| <= |NormaliseQuery(q)| && NormaliseQuery(q)[|NormaliseQuery(q)| - |q|..] == q
  {
    var r := NormaliseQuery(q);
    if !IsUrl(q) {
      assert r[..9] == "ytsearch:";
      assert r[..7] != "http://" by { assert r[0] != 'h'; }
      assert r[..8] != "https://" by { assert r[0] != 'h'; }
    }
  }

}
