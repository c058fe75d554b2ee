/** What clients may write: every message that is accepted, letter by letter, and the request
    it stands for. */
module TextTheory {
  import opened Session
  import opened Codec
  import opened Passes

  predicate NickLetter(c: char) {
    'a' <= c <= 'z' || 'A' <= c <= 'Z' || '0' <= c <= '9' || c == '_'
  }

  predicate ChatLetter(c: char) {
    || 'a' <= c <= 'z' || 'A' <= c <= 'Z' || '0' <= c <= '9' || c in ".!?"
    || c as int == 32 || 9 <= c as int <= 13
  }

  predicate NickText(w: string) {
    && 5 <= |w| <= 22 && w[0] == 'c' && w[1] == ':'
    && forall i :: 2 <= i < |w| ==> NickLetter(w[i])
  }

  predicate MoveRequestText(w: string) {
    && |w| == 10 && w[0] == 'm' && w[1] == ':'
    && forall i :: 2 <= i < |w| ==> '0' <= w[i] <= '9'
  }

  predicate ChatText(w: string) {
    && 4 <= |w| <= 103 && w[0] == 'c' && w[1] == 'h' && w[2] == ':'
    && forall i :: 3 <= i < |w| ==> ChatLetter(w[i])
  }

  lemma FitsNick(w: string)
    ensures Fits(w, Tagged("c:", WordChar, 3, 20)) <==> NickText(w)
  {
  }

  lemma FitsMove(w: string)
    ensures Fits(w, Tagged("m:", DigitChar, 8, 8)) <==> MoveRequestText(w)
  {
  }

  lemma FitsChat(w: string)
    ensures Fits(w, Tagged("ch:", ChatChar, 1, 100)) <==> ChatText(w)
  {
  }

  lemma ItemBySome(w: string)
    ensures IsItem(w) <==>
      || w in {"<", ">", "rd", "l", "ok"}
      || Fits(w, Tagged("c:", WordChar, 3, 20)) || Fits(w, Tagged("m:", DigitChar, 8, 8))
      || Fits(w, Tagged("ch:", ChatChar, 1, 100))
  {
    if IsItem(w) {
      var a :| a in ALTERNATIVES && Fits(w, a);
      AlternativeCases(a);
    }
    if w in {"<", ">", "rd", "l", "ok"} { assert Fits(w, Literal(w)); }
    assert Literal("<") == ALTERNATIVES[0] && Literal(">") == ALTERNATIVES[1] && Literal("rd") == ALTERNATIVES[3];
    assert Literal("l") == ALTERNATIVES[5] && Literal("ok") == ALTERNATIVES[6];
    assert Tagged("c:", WordChar, 3, 20) == ALTERNATIVES[2] && Tagged("m:", DigitChar, 8, 8) == ALTERNATIVES[4];
    assert Tagged("ch:", ChatChar, 1, 100) == ALTERNATIVES[7];
    hide AllIn;
  }

  /** The messages of the protocol, and no others. */
  lemma ItemExactly(w: string)
    ensures IsItem(w) <==> w in {"<", ">", "rd", "l", "ok"} || NickText(w) || MoveRequestText(w) || ChatText(w)
  {
    hide IsItem, Fits, NickText, MoveRequestText, ChatText;
    ItemBySome(w);
    FitsNick(w);
    FitsMove(w);
    FitsChat(w);
  }

  lemma WordRequest(w: string)
    requires w in {"<", ">", "rd", "l", "ok"} && Literal(w) in ALTERNATIVES
    ensures RequestIn(w) ==
      if w == "<" then Pong else if w == ">" then Ping else if w == "rd" then GetReady else if w == "l" then Leave else Unknown
  {
    LiteralTokens(w);
    hide Tokens;
  }

  lemma TaggedRequest(w: string, a: Alternative)
    requires a in ALTERNATIVES && a.Tagged? && Fits(w, a)
    ensures Tokens(w) == [a.tag[..|a.tag| - 1], w[|a.tag|..]]
  {
    AlternativeCases(a);
    TaggedTokens(w, a);
  }

  lemma NickRequest(w: string)
    requires Fits(w, Tagged("c:", WordChar, 3, 20))
    ensures RequestIn(w) == Connect(w[2..]) && w[..2] == "c:"
  {
    var a := Tagged("c:", WordChar, 3, 20);
    assert a == ALTERNATIVES[2];
    TaggedRequest(w, a);
    assert a.tag[..1] == "c";
    hide Tokens, AllIn;
  }

  lemma MoveRequest(w: string)
    requires Fits(w, Tagged("m:", DigitChar, 8, 8))
    ensures RequestIn(w) == Move(w[2..]) && w[..2] == "m:"
  {
    var a := Tagged("m:", DigitChar, 8, 8);
    assert a == ALTERNATIVES[4];
    TaggedRequest(w, a);
    assert a.tag[..1] == "m";
    hide Tokens, AllIn;
  }

  lemma ChatRequest(w: string)
    requires Fits(w, Tagged("ch:", ChatChar, 1, 100))
    ensures RequestIn(w) == Chat(w[3..]) && w[..2] == "ch"
  {
    var a := Tagged("ch:", ChatChar, 1, 100);
    assert a == ALTERNATIVES[7];
    TaggedRequest(w, a);
    assert a.tag[..2] == "ch";
    hide Tokens, AllIn;
  }

  /** What each message asks for. */
  lemma RequestExactly(w: string)
    requires IsItem(w)
    ensures RequestIn(w) ==
      if w == "<" then Pong
      else if w == ">" then Ping
      else if w == "rd" then GetReady
      else if w == "l" then Leave
      else if w == "ok" then Unknown
      else if w[..2] == "c:" then Connect(w[2..])
      else if w[..2] == "m:" then Move(w[2..])
      else Chat(w[3..])
  {
    hide IsItem, Fits, RequestIn;
    ItemBySome(w);
    if w in {"<", ">", "rd", "l", "ok"} {
      KnownWord(w);
      WordRequest(w);
    } else {
      LongEnough(w);
      if Fits(w, Tagged("c:", WordChar, 3, 20)) { NickRequest(w); }
      else if Fits(w, Tagged("m:", DigitChar, 8, 8)) { MoveRequest(w); }
      else { ChatRequest(w); }
    }
  }

  lemma KnownWord(w: string)
    requires w in {"<", ">", "rd", "l", "ok"}
    ensures Literal(w) in ALTERNATIVES
  {
    assert Literal("<") == ALTERNATIVES[0] && Literal(">") == ALTERNATIVES[1] && Literal("rd") == ALTERNATIVES[3];
    assert Literal("l") == ALTERNATIVES[5] && Literal("ok") == ALTERNATIVES[6];
  }

  lemma LongEnough(w: string)
    requires Fits(w, Tagged("c:", WordChar, 3, 20)) || Fits(w, Tagged("m:", DigitChar, 8, 8)) || Fits(w, Tagged("ch:", ChatChar, 1, 100))
    ensures |w| >= 4
  {
  }
}
