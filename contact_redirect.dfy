/**
 * The contact page shown for the two product lines sold only by phone: its
 * texts chosen by product type, the dial target, and the messaging-app link.
 */
module ContactRedirect {

  /** The product type for which the travel texts are shown; every other type gets the home texts. */
  const Voyage: string := "voyage"

  /** The advertised contact number, spaces included. */
  const PhoneNumber: string := "+225 XX XX XX XX XX"

  const TelScheme: string := "tel:"
  const WhatsAppBase: string := "https://wa.me/"
  const TextQuery: string := "?text="

  const TravelTitle: string := "Assurance Voyage"
  const HomeTitle: string := "Assurance Habitation"
  const TravelIcon: string := "\U{2708}\U{FE0F}"
  const HomeIcon: string := "\U{1F3E0}"
  const TravelDescription: string := "Voyagez en toute sérénité avec notre protection complète"
  const HomeDescription: string := "Protégez votre domicile et vos biens personnels"

  /** `getTitle`. */
  function Title(kind: string): string {
    if kind == Voyage then TravelTitle else HomeTitle
  }

  /** `getIcon`: an aeroplane for travel, a house otherwise. */
  function Icon(kind: string): string {
    if kind == Voyage then TravelIcon else HomeIcon
  }

  /** `getDescription`. */
  function Description(kind: string): string {
    if kind == Voyage then TravelDescription else HomeDescription
  }

  /**
   * The texts depend on the type alone and take two forms: every type other
   * than `voyage` shows exactly the texts of `habitation`, and those differ
   * from the travel texts in each of title, icon and description.
   */
  lemma NonVoyageIsHome(kind: string)
    ensures kind != Voyage ==> Title(kind) == Title("habitation") && Icon(kind) == Icon("habitation")
    ensures kind != Voyage ==> Description(kind) == Description("habitation")
    ensures Title(Voyage) != Title("habitation") && Icon(Voyage) != Icon("habitation")
    ensures Description(Voyage) != Description("habitation")
  {
    assert Title(Voyage)[11] != Title("habitation")[11];
    assert Icon(Voyage)[0] != Icon("habitation")[0];
    assert TravelDescription[|TravelDescription| - 1] == 'e';
    assert HomeDescription[|HomeDescription| - 1] == 's';
  }

  /** `handleCall`'s target: the scheme followed by the number exactly as displayed. */
  function CallTarget(): (t: string)
    ensures |t| == |TelScheme| + |PhoneNumber|
    ensures t[..|TelScheme|] == TelScheme && t[|TelScheme|..] == PhoneNumber
  {
    TelScheme + PhoneNumber
  }

  /** The characters JavaScript's `\s` matches. */
  predicate IsWhitespace(c: char) {
    c == ' ' || c == '\t' || c == '\n' || c == '\r' || c == '\U{000B}' || c == '\U{000C}' ||
    c == '\U{00A0}' || c == '\U{1680}' || ('\U{2000}' <= c <= '\U{200A}') ||
    c == '\U{2028}' || c == '\U{2029}' || c == '\U{202F}' || c == '\U{205F}' ||
    c == '\U{3000}' || c == '\U{FEFF}'
  }

  predicate NoWhitespace(s: string) {
    forall i :: 0 <= i < |s| ==> !IsWhitespace(s[i])
  }

  /** `s.replace(/\s/g, '')`: every whitespace character removed, the others kept in order. */
  function StripWhitespace(s: string): (r: string)
    ensures NoWhitespace(r)
    ensures |r| <= |s|
    ensures forall c :: c in r ==> c in s
    ensures forall c :: c in s && !IsWhitespace(c) ==> c in r
  {
    if s == [] then []
    else if IsWhitespace(s[0]) then StripWhitespace(s[1..])
    else
      var rest := StripWhitespace(s[1..]);
      assert forall c :: c in s ==> c == s[0] || c in s[1..];
      [s[0]] + rest
  }

  /** A string without whitespace is left as it is. */
  lemma {:induction false} StripClean(s: string)
    requires NoWhitespace(s)
    ensures StripWhitespace(s) == s
  {
    if s != [] {
      StripClean(s[1..]);
    }
  }

  /** Stripping twice is stripping once. */
  lemma StripIdempotent(s: string)
    ensures StripWhitespace(StripWhitespace(s)) == StripWhitespace(s)
  {
    StripClean(StripWhitespace(s));
  }

  /** The fixed text before and after the product type in the pre-filled message. */
  const MessageOpening := "Bonjour, je suis intéressé(e) par l'assurance "
  const MessageClosing := ". Pouvez-vous me donner plus d'informations ?"

  /** The pre-filled message, before URL encoding. */
  function Message(kind: string): string {
    MessageOpening + kind + MessageClosing
  }

  /**
   * The message is the fixed opening, then the product type verbatim, then
   * the fixed closing question: each part can be read back at its place, so
   * different types give different messages.
   */
  lemma MessageEmbedsKind(kind: string)
    ensures |Message(kind)| == |MessageOpening| + |kind| + |MessageClosing|
    ensures Message(kind)[..|MessageOpening|] == MessageOpening
    ensures Message(kind)[|MessageOpening|..|MessageOpening| + |kind|] == kind
    ensures Message(kind)[|MessageOpening| + |kind|..] == MessageClosing
  {
  }

  /** The message determines the product type it was built from. */
  lemma MessageInjective(a: string, b: string)
    requires Message(a) == Message(b)
    ensures a == b
  {
    MessageEmbedsKind(a);
    MessageEmbedsKind(b);
  }

  /** `handleWhatsApp`'s link; `encode` stands for `encodeURIComponent`. */
  function WhatsAppUrl(kind: string, encode: string -> string): string {
    WhatsAppBase + StripWhitespace(PhoneNumber) + TextQuery + encode(Message(kind))
  }

  /** Stripping distributes over concatenation. */
  lemma {:induction false} StripConcat(a: string, b: string)
    ensures StripWhitespace(a + b) == StripWhitespace(a) + StripWhitespace(b)
  {
    if a != [] {
      assert (a + b)[0] == a[0] && (a + b)[1..] == a[1..] + b;
      StripConcat(a[1..], b);
    } else {
      assert a + b == b;
    }
  }

  /** Appending a space and a whitespace-free group appends just the group. */
  lemma StripAppendSpaced(prefix: string, group: string)
    requires NoWhitespace(group)
    ensures StripWhitespace(prefix + ([' '] + group)) == StripWhitespace(prefix) + group
  {
    var spaced := [' '] + group;
    assert spaced[0] == ' ' && spaced[1..] == group;
    StripClean(group);
    StripConcat(prefix, spaced);
  }

  /** A whitespace-free head followed by five space-separated groups strips to the head and the groups. */
  lemma StripFiveGroups(head: string, group: string)
    requires NoWhitespace(head) && NoWhitespace(group)
    ensures var g := [' '] + group;
            StripWhitespace(head + g + g + g + g + g) == head + group + group + group + group + group
  {
    var g := [' '] + group;
    StripClean(head);
    StripAppendSpaced(head, group);
    StripAppendSpaced(head + g, group);
    StripAppendSpaced(head + g + g, group);
    StripAppendSpaced(head + g + g + g, group);
    StripAppendSpaced(head + g + g + g + g, group);
  }

  /** The advertised number is a country code followed by five space-separated groups. */
  lemma PhoneNumberGroups()
    ensures PhoneNumber == "+225" + " XX" + " XX" + " XX" + " XX" + " XX"
  {
  }

  lemma StripPhoneNumberGroups()
    ensures StripWhitespace("+225" + " XX" + " XX" + " XX" + " XX" + " XX") == "+225" + "XX" + "XX" + "XX" + "XX" + "XX"
  {
    assert NoWhitespace("+225") && NoWhitespace("XX");
    StripFiveGroups("+225", "XX");
    assert [' '] + "XX" == " XX";
  }

  lemma GroupsSpelledOut(number: string)
    requires number == "+225" + "XX" + "XX" + "XX" + "XX" + "XX"
    ensures number == "+225XXXXXXXXXX"
  {
  }

  /** The number part of the link is the advertised number without its spaces. */
  lemma WhatsAppNumber()
    ensures StripWhitespace(PhoneNumber) == "+225XXXXXXXXXX"
    ensures NoWhitespace(StripWhitespace(PhoneNumber))
  {
    PhoneNumberGroups();
    StripPhoneNumberGroups();
    GroupsSpelledOut(StripWhitespace(PhoneNumber));
  }

  /**
   * The link is the messaging-app base, the number with its spaces removed
   * (a string with no whitespace), the text query and the encoded message.
   */
  lemma WhatsAppUrlShape(kind: string, encode: string -> string)
    ensures WhatsAppUrl(kind, encode) == WhatsAppBase + "+225XXXXXXXXXX" + TextQuery + encode(Message(kind))
    ensures NoWhitespace("+225XXXXXXXXXX")
  {
    WhatsAppNumber();
  }
}
