/** The two passes of a statement together: what the rewriter marks once backtick names are translated. */
module BacktickRewrites {
  import opened Text
  import opened SqlLexer
  import opened Backticks
  import opened SqlTokens
  import opened Rewriter

  predicate Emits(p: Piece) { !p.kind.Space? && !p.kind.Comment? }

  predicate AllRead(pieces: seq<Piece>) { forall p | p in pieces :: WellQuoted(p) && p.text != "" }

  /** The tokens of pieces without their positions: a token touches the next one if no other piece is between. */
  function AtomView(pieces: seq<Piece>): seq<Atom>
    requires AllRead(pieces)
  {
    if pieces == [] then []
    else match TokenOf(pieces[0], 0)
      case None => AtomView(pieces[1..])
      case Some(t) => [Atom(t.kind, t.value, |pieces| > 1 && Emits(pieces[1]))] + AtomView(pieces[1..])
  }

  lemma {:induction false} TokensStart(pieces: seq<Piece>, at: nat)
    requires AllRead(pieces)
    ensures var ts := TokenView(pieces, at);
      ts != [] ==> ts[0].start >= at && (ts[0].start == at <==> Emits(pieces[0]))
  {
    if pieces != [] && !Emits(pieces[0]) {
      TokensStart(pieces[1..], at + |pieces[0].text|);
    }
  }

  lemma {:induction false} AtomsAreView(pieces: seq<Piece>, at: nat)
    requires AllRead(pieces)
    ensures AtomsOf(TokenView(pieces, at)) == AtomView(pieces)
  {
    hide AtomView, TokenView, AtomsOf, TokenOf, Decode;
    if pieces == [] {
      NothingToSee(at);
    } else {
      var rest, next := pieces[1..], at + |pieces[0].text|;
      AtomsAreView(rest, next);
      TokensStart(rest, next);
      NonEmptyView(rest, next);
      OneMorePiece(pieces, at);
      if Emits(pieces[0]) {
        AtomsCons(TokenOf(pieces[0], at).value, TokenView(rest, next));
      }
    }
  }

  lemma NothingToSee(at: nat)
    ensures AtomsOf(TokenView([], at)) == AtomView([])
  {
  }

  lemma OneMorePiece(pieces: seq<Piece>, at: nat)
    requires AllRead(pieces) && pieces != []
    ensures var p, rest := pieces[0], pieces[1..]; var next := at + |p.text|;
      && (Emits(p) ==> TokenOf(p, at).Some? && TokenOf(p, at).value.end == next
                       && TokenView(pieces, at) == [TokenOf(p, at).value] + TokenView(rest, next)
                       && AtomView(pieces) == [Atom(TokenOf(p, at).value.kind, TokenOf(p, at).value.value,
                                                    rest != [] && Emits(rest[0]))] + AtomView(rest))
      && (!Emits(p) ==> TokenView(pieces, at) == TokenView(rest, next) && AtomView(pieces) == AtomView(rest))
  {
    hide Decode;
    if Emits(pieces[0]) {
      SameValue(pieces[0], at);
    } else {
      assert TokenView(pieces, at) == [] + TokenView(pieces[1..], at + |pieces[0].text|);
    }
  }

  lemma NonEmptyView(pieces: seq<Piece>, at: nat)
    requires AllRead(pieces)
    ensures pieces != [] && Emits(pieces[0]) ==> TokenView(pieces, at) != []
    ensures pieces == [] ==> TokenView(pieces, at) == []
  {
  }

  lemma SameValue(p: Piece, at: nat)
    requires WellQuoted(p) && Emits(p)
    ensures TokenOf(p, at).Some? && TokenOf(p, 0).Some?
    ensures TokenOf(p, at).value.kind == TokenOf(p, 0).value.kind && TokenOf(p, at).value.value == TokenOf(p, 0).value.value
  {
    hide Decode;
  }

  lemma AtomsCons(t: SqlToken, ts: seq<SqlToken>)
    ensures AtomsOf([t] + ts) == [Atom(t.kind, t.value, ts != [] && t.end == ts[0].start)] + AtomsOf(ts)
  {
    var all := [t] + ts;
    forall k | 0 <= k < |ts| ensures AtomAt(all, k + 1) == AtomAt(ts, k) {
    }
  }

  /** Translating backtick names changes no kind, no name and no neighbourhood of tokens. */
  lemma {:induction false} TranslatedView(pieces: seq<Piece>)
    requires AllRead(pieces)
    ensures AllRead(TranslateAll(pieces)) && AtomView(TranslateAll(pieces)) == AtomView(pieces)
  {
    if pieces != [] {
      hide Decode, Double;
      var p, rest := pieces[0], pieces[1..];
      TranslatedView(rest);
      TranslatedPiece(p);
      if rest != [] {
        TranslatedPiece(rest[0]);
      }
      var all := TranslateAll(pieces);
      assert all == [Translate(p)] + TranslateAll(rest) && all[1..] == TranslateAll(rest);
    }
  }

  lemma TranslatedPiece(p: Piece)
    requires WellQuoted(p) && p.text != ""
    ensures var t := Translate(p);
      && WellQuoted(t) && t.text != "" && Emits(t) == Emits(p)
      && (Emits(p) ==> TokenOf(t, 0).value.kind == TokenOf(p, 0).value.kind
                       && TokenOf(t, 0).value.value == TokenOf(p, 0).value.value)
  {
    if p.kind.Quoted? {
      TranslateKeepsName(p);
    }
    hide Decode, Double;
  }

  lemma LexIsRead(c: Context, s: string)
    ensures AllRead(Lex(c, s))
  {
    LexIsWellQuoted(c, s);
    PiecesNotEmpty(c, s);
  }

  /**
   * On every text in which no double-quoted token touches a backtick name, the rewriter sees the same tokens
   * before and after the translation, and marks the same names, whatever is registered.
   */
  lemma MarksAfterTranslation(sql: string, registry: map<string, string>)
    requires !SomeTouching(Lex(START, sql))
    ensures AtomsOf(TokensOf(Debacktick(START, sql))) == AtomsOf(TokensOf(sql))
    ensures Marks(AtomsOf(TokensOf(Debacktick(START, sql))), registry) == Marks(AtomsOf(TokensOf(sql)), registry)
  {
    hide Lex, Debacktick, TokenView, Marks, AtomView, TranslateAll;
    var pieces := Lex(START, sql);
    Relex(START, sql);
    LexIsRead(START, sql);
    TranslatedView(pieces);
    AtomsAreView(pieces, 0);
    AtomsAreView(TranslateAll(pieces), 0);
    TokensAre(sql);
    TokensAre(Debacktick(START, sql));
  }
}
