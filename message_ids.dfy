/**
 * Message-ID and In-Reply-To synthesis for notification e-mails, and the
 * fixed headers every notification carries. Identifiers follow the msg-id
 * form of section 3.6.4 of RFC 5322: "<" id-left "@" id-right ">".
 */
module MessageIds {
  import opened Options
  import opened Decisions

  predicate IsDigit(c: char)
  {
    '0' <= c <= '9'
  }

  function DigitChar(d: nat): (c: char)
    requires d < 10
    ensures IsDigit(c) && c as int - '0' as int == d
  {
    "0123456789"[d]
  }

  /** Python's "%s" of a non-negative int: its decimal digits. */
  function NatToString(n: nat): (s: string)
    ensures |s| >= 1
    ensures forall i :: 0 <= i < |s| ==> IsDigit(s[i])
  {
    if n < 10 then [DigitChar(n)] else NatToString(n / 10) + [DigitChar(n % 10)]
  }

  /** The number a string of decimal digits denotes. */
  function DigitsValue(s: string): nat
    requires forall i :: 0 <= i < |s| ==> IsDigit(s[i])
  {
    if s == [] then 0
    else
      assert IsDigit(s[|s| - 1]);
      DigitsValue(s[..|s| - 1]) * 10 + (s[|s| - 1] as int - '0' as int)
  }

  lemma {:induction false} DigitsValueOfNatToString(n: nat)
    ensures DigitsValue(NatToString(n)) == n
  {
    if n >= 10 {
      var s := NatToString(n);
      assert s[..|s| - 1] == NatToString(n / 10);
      DigitsValueOfNatToString(n / 10);
    }
  }

  /** Length of the longest all-digit prefix of `s`. */
  function DigitRun(s: string): (k: nat)
    ensures k <= |s|
    ensures forall i :: 0 <= i < k ==> IsDigit(s[i])
    ensures k < |s| ==> !IsDigit(s[k])
  {
    if s == [] || !IsDigit(s[0]) then 0 else 1 + DigitRun(s[1..])
  }

  lemma {:induction false} DigitRunOfDigitsThen(a: string, b: string)
    requires forall i :: 0 <= i < |a| ==> IsDigit(a[i])
    requires b != [] && !IsDigit(b[0])
    ensures DigitRun(a + b) == |a|
  {
    if a != [] {
      assert (a + b)[1..] == a[1..] + b;
      DigitRunOfDigitsThen(a[1..], b);
    }
  }

  /** The kinds of object a message id names. */
  datatype Kind = DecisionKind | FeedbackKind | CommentKind

  function KindPrefix(k: Kind): string
  {
    match k
    case DecisionKind => "decision-"
    case FeedbackKind => "feedback-"
    case CommentKind => "comment-"
  }

  /** "<{kind}-{id}@{domain}>". */
  function MessageId(k: Kind, id: Id, domain: string): string
  {
    "<" + KindPrefix(k) + NatToString(id) + "@" + domain + ">"
  }

  /** Decision.get_message_id, with the current site's domain as a parameter. */
  function DecisionMessageId(id: Id, domain: string): string
  {
    MessageId(DecisionKind, id, domain)
  }

  /** Feedback.get_message_id. */
  function FeedbackMessageId(id: Id, domain: string): string
  {
    MessageId(FeedbackKind, id, domain)
  }

  /** The comment Message-ID exactly as comment_signal_handler formats it: no angle brackets. */
  function CommentMessageIdAsWritten(id: Id, domain: string): string
  {
    "comment-" + NatToString(id) + "@" + domain
  }

  /** The comment Message-ID in the same bracketed form as the other two. */
  function CommentMessageId(id: Id, domain: string): string
  {
    MessageId(CommentKind, id, domain)
  }

  /** The bare shape of an RFC 5322 msg-id: bracketed, with an "@" inside. */
  predicate IsMsgIdShape(s: string)
  {
    |s| >= 3 && s[0] == '<' && s[|s| - 1] == '>' && '@' in s[1..|s| - 1]
  }

  lemma MessageIdShape(k: Kind, id: Id, domain: string)
    ensures IsMsgIdShape(MessageId(k, id, domain))
  {
    var s := MessageId(k, id, domain);
    var at := 1 + |KindPrefix(k)| + |NatToString(id)|;
    assert s[at] == '@';
    assert s[1..|s| - 1][at - 1] == '@';
  }

  /** The as-written comment id is not a msg-id: it does not start with "<". */
  lemma CommentMessageIdAsWrittenIsNotMsgId(id: Id, domain: string)
    ensures !IsMsgIdShape(CommentMessageIdAsWritten(id, domain))
    ensures CommentMessageIdAsWritten(7, "example.org") == "comment-7@example.org"
  {
    assert CommentMessageIdAsWritten(id, domain)[0] == 'c';
  }

  /** What a message id says: the kind, the id and the site domain. */
  datatype MessageRef = MessageRef(kind: Kind, id: nat, domain: string)

  function ParseAfterPrefix(k: Kind, t: string): Option<MessageRef>
  {
    var n := DigitRun(t);
    if n == 0 || n == |t| || t[n] != '@' then None
    else Some(MessageRef(k, DigitsValue(t[..n]), t[n + 1..]))
  }

  /** Reads the inside of a message id: a kind prefix, then digits, "@" and the domain. */
  function ParseInner(inner: string): Option<MessageRef>
  {
    if KindPrefix(DecisionKind) <= inner then ParseAfterPrefix(DecisionKind, inner[|KindPrefix(DecisionKind)|..])
    else if KindPrefix(FeedbackKind) <= inner then ParseAfterPrefix(FeedbackKind, inner[|KindPrefix(FeedbackKind)|..])
    else if KindPrefix(CommentKind) <= inner then ParseAfterPrefix(CommentKind, inner[|KindPrefix(CommentKind)|..])
    else None
  }

  /** Reads a message id back: the inverse of MessageId on what it produces. */
  function ParseMessageId(s: string): Option<MessageRef>
  {
    if |s| < 2 || s[0] != '<' || s[|s| - 1] != '>' then None
    else ParseInner(s[1..|s| - 1])
  }

  /** The part after the kind prefix reads back as the id and the domain. */
  lemma ParseAfterPrefixRoundTrip(k: Kind, id: Id, domain: string)
    ensures ParseAfterPrefix(k, NatToString(id) + "@" + domain) == Some(MessageRef(k, id, domain))
  {
    var digits := NatToString(id);
    var t := digits + "@" + domain;
    DigitRunOfDigitsThen(digits, "@" + domain);
    assert t == digits + ("@" + domain);
    assert t[..|digits|] == digits;
    assert t[|digits| + 1..] == domain;
    DigitsValueOfNatToString(id);
  }

  lemma ParseInnerRoundTrip(k: Kind, t: string)
    ensures ParseInner(KindPrefix(k) + t) == ParseAfterPrefix(k, t)
  {
    var inner := KindPrefix(k) + t;
    assert inner[..|KindPrefix(k)|] == KindPrefix(k);
    assert inner[|KindPrefix(k)|..] == t;
    match k
    case DecisionKind =>
    case FeedbackKind =>
      assert inner[0] == 'f';
    case CommentKind =>
      assert inner[0] == 'c';
  }

  /** Every message id reads back as the kind, id and domain it was built from. */
  lemma ParseMessageIdRoundTrip(k: Kind, id: Id, domain: string)
    ensures ParseMessageId(MessageId(k, id, domain)) == Some(MessageRef(k, id, domain))
  {
    var s := MessageId(k, id, domain);
    var t := NatToString(id) + "@" + domain;
    var inner := KindPrefix(k) + t;
    assert s == "<" + inner + ">";
    assert s[1..|s| - 1] == inner;
    ParseInnerRoundTrip(k, t);
    ParseAfterPrefixRoundTrip(k, id, domain);
  }

  /** Message ids are unique per (kind, id, site domain). */
  lemma MessageIdInjective(k: Kind, id: Id, domain: string, k': Kind, id': Id, domain': string)
    requires MessageId(k, id, domain) == MessageId(k', id', domain')
    ensures k == k' && id == id' && domain == domain'
  {
    ParseMessageIdRoundTrip(k, id, domain);
    ParseMessageIdRoundTrip(k', id', domain');
  }

  /** The corrected comment id is a msg-id, like the decision and feedback ids. */
  lemma CommentMessageIdIsMsgId(id: Id, domain: string)
    ensures IsMsgIdShape(CommentMessageId(id, domain))
  {
    MessageIdShape(CommentKind, id, domain);
  }

  /**
   * The Message-ID each kind of notice is sent with: the bracketed form for
   * decisions and feedback, the unbracketed form for comments.
   */
  function SentMessageId(k: Kind, id: Id, domain: string): string
  {
    if k == CommentKind then CommentMessageIdAsWritten(id, domain) else MessageId(k, id, domain)
  }

  /** Reads a sent id back: bracketed ids through ParseMessageId, the others through ParseInner. */
  function ParseSentMessageId(s: string): Option<MessageRef>
  {
    if |s| > 0 && s[0] == '<' then ParseMessageId(s) else ParseInner(s)
  }

  /** Every sent id reads back as the kind, id and domain it was built from. */
  lemma ParseSentMessageIdRoundTrip(k: Kind, id: Id, domain: string)
    ensures ParseSentMessageId(SentMessageId(k, id, domain)) == Some(MessageRef(k, id, domain))
  {
    if k == CommentKind {
      var t := NatToString(id) + "@" + domain;
      assert CommentMessageIdAsWritten(id, domain) == KindPrefix(CommentKind) + t;
      assert CommentMessageIdAsWritten(id, domain)[0] == 'c';
      ParseInnerRoundTrip(CommentKind, t);
      ParseAfterPrefixRoundTrip(CommentKind, id, domain);
    } else {
      assert MessageId(k, id, domain)[0] == '<';
      ParseMessageIdRoundTrip(k, id, domain);
    }
  }

  /**
   * The ids the handlers send are unique per (kind, id, site domain): in
   * particular an unbracketed comment id never equals a decision or
   * feedback id.
   */
  lemma SentMessageIdInjective(k: Kind, id: Id, domain: string, k': Kind, id': Id, domain': string)
    requires SentMessageId(k, id, domain) == SentMessageId(k', id', domain')
    ensures k == k' && id == id' && domain == domain'
  {
    ParseSentMessageIdRoundTrip(k, id, domain);
    ParseSentMessageIdRoundTrip(k', id', domain');
  }

  /** The sent comment id differs from every bracketed id, whatever its kind, id and domain. */
  lemma CommentIdNeverBracketed(id: Id, domain: string, k: Kind, id': Id, domain': string)
    ensures CommentMessageIdAsWritten(id, domain) != MessageId(k, id', domain')
  {
    assert CommentMessageIdAsWritten(id, domain)[0] == 'c';
    assert MessageId(k, id', domain')[0] == '<';
  }

  /** STANDARD_SENDING_HEADERS. */
  const StandardSendingHeaders: map<string, string> :=
    map["Precedence" := "bulk", "Auto-Submitted" := "auto-generated"]

  /**
   * The headers dict the handlers build: the Message-ID, updated with the
   * standard headers, and updated with In-Reply-To when there is a parent.
   */
  function SendingHeaders(messageId: string, inReplyTo: Option<string>): (h: map<string, string>)
    ensures h.Keys == {"Message-ID", "Precedence", "Auto-Submitted"} + (if inReplyTo.Some? then {"In-Reply-To"} else {})
    ensures h["Message-ID"] == messageId
    ensures h["Precedence"] == "bulk" && h["Auto-Submitted"] == "auto-generated"
    ensures inReplyTo.Some? ==> h["In-Reply-To"] == inReplyTo.value
  {
    var headers := map["Message-ID" := messageId] + StandardSendingHeaders;
    if inReplyTo.Some? then headers + map["In-Reply-To" := inReplyTo.value] else headers
  }
}
