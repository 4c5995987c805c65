/** Synthetic test contacts. Every random draw is an input: a `Draw` holds the pool positions
    `random.choice` picked and the integers `random.randint` returned for one contact. */
module Generator {
  import opened Contacts
  import opened Decimal

  const FirstNames: seq<string> :=
    ["Иван", "Петр", "Сергей", "Андрей", "Елена", "Ольга", "Мария", "Александра"]
  const LastNames: seq<string> :=
    ["Иванов", "Петров", "Сидоров", "Кузнецов", "Смирнова", "Попова", "Козлова", "Новикова"]
  const MiddleNames: seq<string> := ["", "Иванович", "Петрович"]
  const Organizations: seq<string> :=
    ["Компания1", "Компания2", "Компания3", "Компания4", "Компания5"]

  /** The four integers one phone number is built from. */
  datatype PhoneDraw = PhoneDraw(code: int, exchange: int, pair1: int, pair2: int)

  /** The ranges `randint(10, 99)`, `randint(100, 999)`, `randint(10, 99)`, `randint(10, 99)`
      guarantee, bounds included. */
  predicate ValidPhoneDraw(g: PhoneDraw)
  {
    10 <= g.code <= 99 && 100 <= g.exchange <= 999 && 10 <= g.pair1 <= 99 && 10 <= g.pair2 <= 99
  }

  /** Everything drawn for one generated contact. */
  datatype Draw = Draw(
    firstName: nat,
    lastName: nat,
    middleName: nat,
    organization: nat,
    work: PhoneDraw,
    personal: PhoneDraw)

  predicate ValidDraw(d: Draw)
  {
    && d.firstName < |FirstNames|
    && d.lastName < |LastNames|
    && d.middleName < |MiddleNames|
    && d.organization < |Organizations|
    && ValidPhoneDraw(d.work)
    && ValidPhoneDraw(d.personal)
  }

  /** The phone text `+7(9{code}){exchange}-{pair1}-{pair2}`, which always has the shape
      `+7(9dd)ddd-dd-dd`. */
  function PhoneNumber(g: PhoneDraw): (p: string)
    requires ValidPhoneDraw(g)
    ensures HasPhoneShape(p)
  {
    TwoDigits(g.code); ThreeDigits(g.exchange); TwoDigits(g.pair1); TwoDigits(g.pair2);
    PhoneParts(Show(g.code), Show(g.exchange), Show(g.pair1), Show(g.pair2));
    "+7(9" + Show(g.code) + ")" + Show(g.exchange) + "-" + Show(g.pair1) + "-" + Show(g.pair2)
  }

  /** The shape `+7(9dd)ddd-dd-dd`: sixteen characters, every `d` a decimal digit. */
  predicate HasPhoneShape(p: string)
  {
    && |p| == 16
    && p[0] == '+' && p[1] == '7' && p[2] == '(' && p[3] == '9'
    && IsDigit(p[4]) && IsDigit(p[5])
    && p[6] == ')'
    && IsDigit(p[7]) && IsDigit(p[8]) && IsDigit(p[9])
    && p[10] == '-'
    && IsDigit(p[11]) && IsDigit(p[12])
    && p[13] == '-'
    && IsDigit(p[14]) && IsDigit(p[15])
  }

  /** The four numbers a phone of that shape spells. */
  function PhoneDigits(p: string): PhoneDraw
    requires HasPhoneShape(p)
  {
    PhoneDraw(Value(p[4..6]), Value(p[7..10]), Value(p[11..13]), Value(p[14..16]))
  }

  /** Digit groups of two, three, two and two digits, put between the fixed characters,
      give a string of the phone shape whose groups sit at positions 4, 7, 11 and 14. */
  lemma PhoneParts(a: string, b: string, c: string, d: string)
    requires |a| == 2 && |b| == 3 && |c| == 2 && |d| == 2
    requires forall i :: 0 <= i < |a| ==> IsDigit(a[i])
    requires forall i :: 0 <= i < |b| ==> IsDigit(b[i])
    requires forall i :: 0 <= i < |c| ==> IsDigit(c[i])
    requires forall i :: 0 <= i < |d| ==> IsDigit(d[i])
    ensures var p := "+7(9" + a + ")" + b + "-" + c + "-" + d;
      && HasPhoneShape(p)
      && p[4..6] == a && p[7..10] == b && p[11..13] == c && p[14..16] == d
  {
    var p := "+7(9" + a + ")" + b + "-" + c + "-" + d;
    assert p[..4] == "+7(9" && p[4..6] == a && p[6] == ')' && p[7..10] == b && p[10] == '-'
      && p[11..13] == c && p[13] == '-' && p[14..16] == d;
    assert p[4] == a[0] && p[5] == a[1];
    assert p[7] == b[0] && p[8] == b[1] && p[9] == b[2];
    assert p[11] == c[0] && p[12] == c[1];
    assert p[14] == d[0] && p[15] == d[1];
  }

  /** The digit groups of a generated phone read back as the drawn numbers. */
  lemma {:induction false} PhoneRoundTrip(g: PhoneDraw)
    requires ValidPhoneDraw(g)
    ensures PhoneDigits(PhoneNumber(g)) == g
  {
    TwoDigits(g.code); ThreeDigits(g.exchange); TwoDigits(g.pair1); TwoDigits(g.pair2);
    PhoneParts(Show(g.code), Show(g.exchange), Show(g.pair1), Show(g.pair2));
    ValueOfShow(g.code); ValueOfShow(g.exchange); ValueOfShow(g.pair1); ValueOfShow(g.pair2);
  }

  /** The contact one iteration of the generator builds: names and organization from the
      pools, and two phones of the `+7(9dd)ddd-dd-dd` shape. */
  function MakeContact(d: Draw): (c: Contact)
    requires ValidDraw(d)
    ensures WellFormedGenerated(c)
  {
    Contact(LastNames[d.lastName], FirstNames[d.firstName], MiddleNames[d.middleName],
            Organizations[d.organization], PhoneNumber(d.work), PhoneNumber(d.personal))
  }

  /** The contacts the generator appends: one per draw, in loop order, each well formed. */
  function Generated(draws: seq<Draw>): (cs: seq<Contact>)
    requires forall i :: 0 <= i < |draws| ==> ValidDraw(draws[i])
    ensures |cs| == |draws|
    ensures forall i {:trigger WellFormedGenerated(cs[i])} :: 0 <= i < |draws| ==> WellFormedGenerated(cs[i])
  {
    seq(|draws|, i requires 0 <= i < |draws| => MakeContact(draws[i]))
  }

  /** A contact the generator can produce: names and organization from the fixed pools,
      both phones of the `+7(9dd)ddd-dd-dd` shape. */
  predicate WellFormedGenerated(c: Contact)
  {
    && c.firstName in FirstNames
    && c.lastName in LastNames
    && c.middleName in MiddleNames
    && c.organization in Organizations
    && HasPhoneShape(c.workPhone)
    && HasPhoneShape(c.personalPhone)
  }

  /** The phones of the i-th generated contact carry the i-th iteration's draws. */
  lemma GeneratedCarriesDraws(draws: seq<Draw>)
    requires forall i :: 0 <= i < |draws| ==> ValidDraw(draws[i])
    ensures forall i :: 0 <= i < |draws| ==>
      && PhoneDigits(Generated(draws)[i].workPhone) == draws[i].work
      && PhoneDigits(Generated(draws)[i].personalPhone) == draws[i].personal
  {
    forall i | 0 <= i < |draws|
      ensures && PhoneDigits(Generated(draws)[i].workPhone) == draws[i].work
              && PhoneDigits(Generated(draws)[i].personalPhone) == draws[i].personal
    {
      PhoneRoundTrip(draws[i].work);
      PhoneRoundTrip(draws[i].personal);
    }
  }
}
