/** The callback data carried by the bot's inline buttons: the three admin
    buttons under a new-request notification and the five service buttons of
    the intake wizard, how the bot builds them and how its handlers read them
    back with `split('_')[k]` and `parseInt`. */
module Callbacks {
  import opened Text

  /** The two status buttons of an admin notification. */
  datatype StatusKind = Progress | Done

  function KindWord(kind: StatusKind): string
  {
    match kind
    case Progress => "progress"
    case Done => "done"
  }

  /** `admin_contact_${id}`. */
  function ContactData(id: nat): string
  {
    "admin_contact_" + NatToDecimal(id)
  }

  /** `admin_status_progress_${id}` and `admin_status_done_${id}`. */
  function StatusData(kind: StatusKind, id: nat): string
  {
    "admin_status_" + KindWord(kind) + "_" + NatToDecimal(id)
  }

  /** `req_service_${n}`, the data of the n-th service button. */
  function ServiceData(n: nat): string
  {
    "req_service_" + NatToDecimal(n)
  }

  /** `parseInt(data.split('_')[k])`; `None` is `NaN`. */
  function FieldNumber(data: string, k: nat): Option<int>
  {
    ParseField(Field(data, '_', k))
  }

  /** The request id the contact handler reads: field 2. */
  function ContactId(data: string): Option<int>
  {
    FieldNumber(data, 2)
  }

  /** The request id the two status handlers read: field 3. */
  function StatusId(data: string): Option<int>
  {
    FieldNumber(data, 3)
  }

  /** The five services offered by the intake wizard, in button order. */
  const Services: seq<string> := [
    "Натяжные потолки",
    "Многоуровневые потолки",
    "3D-потолки с фотопечатью",
    "Ремонт \"под ключ\"",
    "Дизайн интерьеров"
  ]

  /** `services[parseInt(data.split('_')[2])]`; an index that is `NaN`,
      negative or past the table reads `undefined`, here `None`. */
  function ServiceOf(data: string): (r: Option<string>)
    ensures r.Some? <==> FieldNumber(data, 2).Some? && 0 <= FieldNumber(data, 2).value < |Services|
    ensures r.Some? ==> r.value in Services
  {
    match FieldNumber(data, 2)
    case Some(i) => if 0 <= i < |Services| then Some(Services[i]) else None
    case None => None
  }

  /** Data accepted by the pattern `^<prefix>\d+$`. */
  predicate MatchesDigitsAfter(prefix: string, data: string)
  {
    prefix <= data && |data| > |prefix| && AllDigits(data[|prefix|..])
  }

  /** The contact handler's pattern `^admin_contact_\d+$`. */
  predicate MatchesContact(data: string)
  {
    MatchesDigitsAfter("admin_contact_", data)
  }

  /** The status handlers' patterns `^admin_status_progress_\d+$` and `^admin_status_done_\d+$`. */
  predicate MatchesStatus(kind: StatusKind, data: string)
  {
    MatchesDigitsAfter("admin_status_" + KindWord(kind) + "_", data)
  }

  /** A string of digits contains no underscore. */
  lemma DigitsHaveNoUnderscore(s: string)
    requires AllDigits(s)
    ensures '_' !in s
  {
  }

  lemma JoinThree(a: string, b: string, c: string, sep: char)
    ensures Join([a, b, c], sep) == a + [sep] + b + [sep] + c
  {
    assert [b, c][1..] == [c];
    assert Join([b, c], sep) == b + [sep] + c;
    assert [a, b, c][1..] == [b, c];
    assert Join([a, b, c], sep) == a + [sep] + (b + [sep] + c);
  }

  /** How `split('_')` cuts a contact button's data: three fields, the last one the digits. */
  lemma SplitContact(digits: string)
    requires AllDigits(digits)
    ensures Split("admin_contact_" + digits, '_') == ["admin", "contact", digits]
  {
    DigitsHaveNoUnderscore(digits);
    JoinThree("admin", "contact", digits, '_');
    assert "admin" + ['_'] + "contact" + ['_'] + digits == "admin_contact_" + digits;
    SplitJoin(["admin", "contact", digits], '_');
  }

  /** How `split('_')` cuts a status button's data: four fields, the last one the digits. */
  lemma SplitStatus(kind: StatusKind, digits: string)
    requires AllDigits(digits)
    ensures Split("admin_status_" + KindWord(kind) + "_" + digits, '_') == ["admin", "status", KindWord(kind), digits]
  {
    DigitsHaveNoUnderscore(digits);
    var parts := ["admin", "status", KindWord(kind), digits];
    JoinThree("status", KindWord(kind), digits, '_');
    assert parts[1..] == ["status", KindWord(kind), digits];
    assert Join(parts, '_') == "admin" + ['_'] + ("status" + ['_'] + KindWord(kind) + ['_'] + digits);
    assert "admin" + ['_'] + ("status" + ['_'] + KindWord(kind) + ['_'] + digits)
        == "admin_status_" + KindWord(kind) + "_" + digits;
    SplitJoin(parts, '_');
  }

  /** The contact handler reads back the id the notification put in the button. */
  lemma ContactRoundTrip(id: nat)
    ensures MatchesContact(ContactData(id))
    ensures ContactId(ContactData(id)) == Some(id)
  {
    var digits := NatToDecimal(id);
    assert ContactData(id)[|"admin_contact_"|..] == digits;
    SplitContact(digits);
    ParseIntOfNatToDecimal(id);
  }

  /** Both status handlers read back the id the notification put in their button. */
  lemma StatusRoundTrip(kind: StatusKind, id: nat)
    ensures MatchesStatus(kind, StatusData(kind, id))
    ensures StatusId(StatusData(kind, id)) == Some(id)
  {
    var digits := NatToDecimal(id);
    var prefix := "admin_status_" + KindWord(kind) + "_";
    assert StatusData(kind, id) == prefix + digits;
    assert StatusData(kind, id)[|prefix|..] == digits;
    SplitStatus(kind, digits);
    ParseIntOfNatToDecimal(id);
  }

  /** Any data the contact pattern accepts decodes to the value of its digits. */
  lemma ContactIdOfMatching(data: string)
    requires MatchesContact(data)
    ensures ContactId(data) == Some(DecimalValue(data[|"admin_contact_"|..]))
  {
    var digits := data[|"admin_contact_"|..];
    assert data == "admin_contact_" + digits;
    SplitContact(digits);
    ParseIntOfDigits(digits);
  }

  /** Any data a status pattern accepts decodes to the value of its digits. */
  lemma StatusIdOfMatching(kind: StatusKind, data: string)
    requires MatchesStatus(kind, data)
    ensures StatusId(data) == Some(DecimalValue(data[|"admin_status_" + KindWord(kind) + "_"|..]))
  {
    var prefix := "admin_status_" + KindWord(kind) + "_";
    var digits := data[|prefix|..];
    assert data == prefix + digits;
    SplitStatus(kind, digits);
    ParseIntOfDigits(digits);
  }

  /** The two status patterns never accept the same data, so each button reaches one handler. */
  lemma StatusPatternsDisjoint(data: string)
    ensures !(MatchesStatus(Progress, data) && MatchesStatus(Done, data))
  {
    if MatchesStatus(Progress, data) {
      assert data[13] == "admin_status_progress_"[13] == 'p';
      assert "admin_status_done_"[13] == 'd';
    }
  }

  /** Each of the five service buttons selects its own service. */
  lemma ServiceRoundTrip(n: nat)
    requires n < |Services|
    ensures ServiceOf(ServiceData(n)) == Some(Services[n])
  {
    var digits := NatToDecimal(n);
    DigitsHaveNoUnderscore(digits);
    var parts := ["req", "service", digits];
    JoinThree("req", "service", digits, '_');
    assert "req" + ['_'] + "service" + ['_'] + digits == ServiceData(n);
    SplitJoin(parts, '_');
    ParseIntOfNatToDecimal(n);
  }
}
