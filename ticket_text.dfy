/**
 * Sanitising the receipt text before it is sent to the printer (utils/imprimirTicket.js):
 * accented letters become plain ASCII letters and carriage returns are dropped.
 */
module TicketText {
  import Seqs

  /** `s.replace(/from/g, to)` for a single character. */
  function ReplaceAll(s: string, from: char, to: char): (r: string)
    ensures |r| == |s|
    ensures forall i :: 0 <= i < |s| ==> r[i] == if s[i] == from then to else s[i]
  {
    seq(|s|, i requires 0 <= i < |s| => if s[i] == from then to else s[i])
  }

  /** `limpiarAcentos`: the twelve replacements, applied in the order the source chains them. */
  function StripAccents(s: string): (r: string)
    ensures |r| == |s|
  {
    var t := ReplaceAll(ReplaceAll(s, '\U{00E1}', 'a'), '\U{00C1}', 'A');
    var t := ReplaceAll(ReplaceAll(t, '\U{00E9}', 'e'), '\U{00C9}', 'E');
    var t := ReplaceAll(ReplaceAll(t, '\U{00ED}', 'i'), '\U{00CD}', 'I');
    var t := ReplaceAll(ReplaceAll(t, '\U{00F3}', 'o'), '\U{00D3}', 'O');
    var t := ReplaceAll(ReplaceAll(t, '\U{00FA}', 'u'), '\U{00DA}', 'U');
    ReplaceAll(ReplaceAll(t, '\U{00F1}', 'n'), '\U{00D1}', 'N')
  }

  /** The twelve accented letters the sanitiser knows: á Á é É í Í ó Ó ú Ú ñ Ñ. */
  const Accented: set<char> := {
    '\U{00E1}', '\U{00C1}', '\U{00E9}', '\U{00C9}', '\U{00ED}', '\U{00CD}',
    '\U{00F3}', '\U{00D3}', '\U{00FA}', '\U{00DA}', '\U{00F1}', '\U{00D1}'}

  /** The plain letter each accented letter stands for, as a table read one character at a time. */
  function Unaccent(c: char): (d: char)
    ensures d !in Accented
    ensures c !in Accented ==> d == c
  {
    match c
    case '\U{00E1}' => 'a'
    case '\U{00C1}' => 'A'
    case '\U{00E9}' => 'e'
    case '\U{00C9}' => 'E'
    case '\U{00ED}' => 'i'
    case '\U{00CD}' => 'I'
    case '\U{00F3}' => 'o'
    case '\U{00D3}' => 'O'
    case '\U{00FA}' => 'u'
    case '\U{00DA}' => 'U'
    case '\U{00F1}' => 'n'
    case '\U{00D1}' => 'N'
    case _ => c
  }

  /**
   * The chain of replacements acts character by character: each position is mapped through
   * the table on its own, so the length is kept, no accented letter survives and every
   * other character stays where it was.
   */
  lemma StripAccentsPerChar(s: string)
    ensures |StripAccents(s)| == |s|
    ensures forall i :: 0 <= i < |s| ==> StripAccents(s)[i] == Unaccent(s[i])
    ensures forall i :: 0 <= i < |s| ==> StripAccents(s)[i] !in Accented
    ensures forall i :: 0 <= i < |s| && s[i] !in Accented ==> StripAccents(s)[i] == s[i]
  {
  }

  /** Sanitising twice is sanitising once. */
  lemma StripAccentsIdempotent(s: string)
    ensures StripAccents(StripAccents(s)) == StripAccents(s)
  {
  }

  /** `t.replace(/\r/g, '')` */
  function RemoveCarriageReturns(s: string): (r: string)
    ensures '\r' !in r
  {
    Seqs.Filter(s, c => c != '\r')
  }

  /** Every character other than `\r` is kept, as often as it occurs and in its order. */
  lemma {:induction false} RemoveCarriageReturnsKeepsRest(s: string)
    ensures Seqs.IsSubseq(RemoveCarriageReturns(s), s)
    ensures multiset(RemoveCarriageReturns(s)) == multiset(s)['\r' := 0]
  {
    Seqs.FilterIsSubseq(s, c => c != '\r');
    if s != [] {
      var head, tail := s[0], s[1..];
      RemoveCarriageReturnsKeepsRest(tail);
      var kept: string := if head != '\r' then [head] else [];
      assert RemoveCarriageReturns(s) == kept + RemoveCarriageReturns(tail);
      assert multiset(s) == multiset{head} + multiset(tail) by {
        assert s == [head] + tail;
      }
      assert multiset(kept) == multiset{head}['\r' := 0];
    }
  }

  /** `textoLimpio = limpiarAcentos(textoTicket).replace(/\r/g, '')` */
  function CleanText(ticket: string): (r: string)
    ensures '\r' !in r
    ensures forall c :: c in r ==> c !in Accented
  {
    var t := StripAccents(ticket);
    StripAccentsPerChar(ticket);
    RemoveCarriageReturns(t)
  }

  /** The text put into the print buffer: `textoLimpio.replace(/\r/g, '')` once more. */
  function BufferText(ticket: string): (r: string)
    ensures '\r' !in r
    ensures forall c :: c in r ==> c !in Accented
  {
    RemoveCarriageReturns(CleanText(ticket))
  }

  /** The second carriage-return removal changes nothing: the buffer holds the cleaned text. */
  lemma BufferIsCleanText(ticket: string)
    ensures BufferText(ticket) == CleanText(ticket)
  {
    var t := CleanText(ticket);
    Seqs.FilterKeepsAll(t, c => c != '\r');
  }
}
