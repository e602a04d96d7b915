/**
 * The legacy front end's logic (legacychain-frontend/src/App.jsx): the
 * recipient-address heuristic, the unlock countdown, and the submit flow that
 * sends the will to the back end and then records it in the session history.
 *
 * Instants are integer milliseconds; parsing the `datetime-local` value is an
 * oracle whose result (`None` for an invalid date) is a parameter, and so are
 * the back end's reply and the AES decryption of the secret message. The
 * component's state is the class `App`; its methods are proved to follow the
 * pure transitions `Submit`, `AfterSave` and `UpdateCountdown`.
 */
module LegacyApp {
  import opened Js

  // ---------------------------------------------------------------------------
  // Recipient heuristic
  // ---------------------------------------------------------------------------

  /** `recipient.length === 56 && recipient.startsWith('G')`, length in UTF-16 code units. */
  function IsValidRecipient(recipient: string): (ok: bool)
    ensures ok ==> |recipient| > 0 && recipient[0] == 'G' && 28 <= |recipient| <= 56
    ensures InBasicPlane(recipient) ==> (ok <==> |recipient| == 56 && recipient[0] == 'G')
  {
    assert InBasicPlane(recipient) ==> Utf16Length(recipient) == |recipient| by {
      if InBasicPlane(recipient) {
        BasicPlaneLength(recipient);
      }
    }
    Utf16Length(recipient) == 56 && StartsWith(recipient, "G")
  }

  /** A 55-character string starting with 'G', and a 56-character one starting otherwise, are both rejected. */
  lemma RecipientBoundaries(s: string)
    requires InBasicPlane(s)
    ensures |s| == 55 ==> !IsValidRecipient(s)
    ensures |s| == 56 && s[0] != 'G' ==> !IsValidRecipient(s)
    ensures |s| == 56 && s[0] == 'G' ==> IsValidRecipient(s)
  {
  }

  /** A character outside the Basic Multilingual Plane counts twice, so 55 characters can pass. */
  lemma AstralCharacterCountsTwice(s: string)
    requires |s| == 54 && InBasicPlane(s) && s[0] == 'G'
    ensures IsValidRecipient(s + ['\U{1F511}'])
  {
    BasicPlaneLength(s);
    var t := s + ['\U{1F511}'];
    assert t[..|t| - 1] == s;
  }

  // ---------------------------------------------------------------------------
  // Countdown
  // ---------------------------------------------------------------------------

  const MsPerMinute := 60_000
  const MsPerHour := 3_600_000
  const MsPerDay := 86_400_000

  datatype Remaining = Remaining(days: nat, hours: nat, minutes: nat)

  function Milliseconds(r: Remaining): nat {
    r.days * MsPerDay + r.hours * MsPerHour + r.minutes * MsPerMinute
  }

  /**
   * The floored days, hours and minutes left before the unlock instant: the
   * remaining time rounded down to a whole minute.
   */
  function RemainingTime(diff: int): (r: Remaining)
    requires diff > 0
    ensures r.hours < 24 && r.minutes < 60
    ensures Milliseconds(r) <= diff < Milliseconds(r) + MsPerMinute
  {
    var r := Remaining(diff / MsPerDay, (diff / MsPerHour) % 24, (diff / MsPerMinute) % 60);
    WholeMinutes(diff);
    r
  }

  /** The floored hours are the floored minutes over 60, and the floored days the floored hours over 24. */
  lemma UnitsNest(diff: nat)
    ensures (diff / MsPerMinute) / 60 == diff / MsPerHour
    ensures (diff / MsPerHour) / 24 == diff / MsPerDay
  {
  }

  /** The decomposition adds up to the whole minutes of `diff`. */
  lemma WholeMinutes(diff: nat)
    ensures var m := diff / MsPerMinute;
            Milliseconds(Remaining(diff / MsPerDay, (diff / MsPerHour) % 24, m % 60)) == m * MsPerMinute
            && m * MsPerMinute <= diff < m * MsPerMinute + MsPerMinute
  {
    UnitsNest(diff);
    var m, h, d := diff / MsPerMinute, diff / MsPerHour, diff / MsPerDay;
    assert m == 60 * h + m % 60;
    assert h == 24 * d + h % 24;
  }

  /** The decomposition is the only one with hours below 24 and minutes below 60 that brackets `diff`. */
  lemma RemainingTimeUnique(diff: int, r: Remaining)
    requires diff > 0
    requires r.hours < 24 && r.minutes < 60
    requires Milliseconds(r) <= diff < Milliseconds(r) + MsPerMinute
    ensures r == RemainingTime(diff)
  {
    var m := r.days * 1440 + r.hours * 60 + r.minutes;
    assert Milliseconds(r) == m * MsPerMinute;
    assert diff / MsPerMinute == m;
    var h := r.days * 24 + r.hours;
    assert m == 60 * h + r.minutes;
    assert m / 60 == h && m % 60 == r.minutes;
    assert h / 24 == r.days && h % 24 == r.hours;
    UnitsNest(diff);
  }

  const InvalidDateText := "❌ Geçersiz tarih"
  const UnlockedText := "🔓 Kilit tarihi geldi!"
  const DecryptFailedText := "❌ Mesaj çözülemedi"

  function RemainingText(r: Remaining): string {
    "⏳ Kilit açılmasına " + NatText(r.days) + " gün " + NatText(r.hours) + " saat "
      + NatText(r.minutes) + " dakika kaldı"
  }

  /** What decrypting the secret message with the fixed key gives: a UTF-8 text, or a thrown error. */
  datatype Decryption = Plaintext(text: string) | DecryptError

  /** One run of `updateCountdown`: the countdown text and, if decryption was attempted, the decrypted-message text. */
  datatype Tick = Tick(countdown: string, decrypted: Option<string>)

  /**
   * `updateCountdown`. The branches are tried in order: no unlock date, an
   * invalid date (before the sign of the difference is looked at), unlocked,
   * and otherwise the remaining time. Decryption is tried only once unlocked
   * and only for a non-empty secret message, and never shows an empty text.
   */
  function UpdateCountdown(unlockDate: string, target: Option<int>, now: int, secretMessage: string,
                           decrypt: Decryption): (t: Tick)
    ensures unlockDate == "" ==> t == Tick("", None)
    ensures unlockDate != "" && target.None? ==> t == Tick(InvalidDateText, None)
    ensures unlockDate != "" && target.Some? && target.value - now <= 0 ==> t.countdown == UnlockedText
    ensures unlockDate != "" && target.Some? && target.value - now > 0 ==>
              t == Tick(RemainingText(RemainingTime(target.value - now)), None)
    ensures t.decrypted.Some? <==>
              unlockDate != "" && target.Some? && target.value - now <= 0 && secretMessage != ""
    ensures t.decrypted.Some? ==> t.decrypted.value != ""
    ensures t.decrypted.Some? && decrypt.Plaintext? && decrypt.text != "" ==> t.decrypted.value == decrypt.text
    ensures t.decrypted.Some? && (decrypt.DecryptError? || decrypt.text == "") ==> t.decrypted.value == DecryptFailedText
  {
    if unlockDate == "" then Tick("", None)
    else if target.None? then Tick(InvalidDateText, None)
    else
      var diff := target.value - now;
      if diff <= 0 then
        if secretMessage == "" then Tick(UnlockedText, None)
        else
          var shown := match decrypt
            case Plaintext(text) => if text != "" then text else DecryptFailedText
            case DecryptError => DecryptFailedText;
          Tick(UnlockedText, Some(shown))
      else Tick(RemainingText(RemainingTime(diff)), None)
  }

  /** Twenty-five hours before the unlock instant the countdown reads 1 day, 1 hour, 0 minutes. */
  lemma TwentyFiveHours(unlockDate: string, now: int, secretMessage: string, decrypt: Decryption)
    requires unlockDate != ""
    ensures UpdateCountdown(unlockDate, Some(now + 25 * MsPerHour), now, secretMessage, decrypt).countdown
            == "⏳ Kilit açılmasına 1 gün 1 saat 0 dakika kaldı"
  {
    var diff := (now + 25 * MsPerHour) - now;
    assert diff == 90_000_000;
    RemainingTimeUnique(diff, Remaining(1, 1, 0));
    assert NatText(1) == "1" && NatText(0) == "0";
    assert RemainingText(Remaining(1, 1, 0)) == "⏳ Kilit açılmasına 1 gün 1 saat 0 dakika kaldı";
  }

  // ---------------------------------------------------------------------------
  // Submitting a will
  // ---------------------------------------------------------------------------

  const ConnectWalletToast := "❌ Önce cüzdanı bağla"
  const FillFieldsToast := "❌ Gerekli alanları doldurun"
  const InvalidRecipientToast := "❌ Varis adresi geçersiz"
  const SendingStatus := "⏳ Mesaj şifreleniyor ve sunucuya gönderiliyor..."
  const AwaitingWalletStatus := "🦊 Cüzdan onayı bekleniyor..."
  const ServerErrorStatus := "❌ Sunucu hatası!"
  const ServerErrorToast := "❌ Sunucu hatası"
  const BackendDownStatus := "❌ Sunucuya bağlanılamadı! (backend kapalı)"
  const BackendDownToast := "❌ Backend kapalı olabilir"
  const SavedToast := "✅ İşlem başarıyla kaydedildi"

  function SavedStatus(hash: JsVal): string {
    "🏆 BAŞARILI! Web3 işlemi gönderildi. ID: " + ToJsString(hash) + " Stellar’a kilitlendi."
  }

  /** The four inputs of the will form. */
  datatype Form = Form(recipient: string, amount: string, unlockDate: string, secretMessage: string)

  const EmptyForm := Form("", "", "", "")

  /** All three required inputs are filled in; the secret message is optional. */
  predicate Filled(form: Form) {
    form.recipient != "" && form.amount != "" && form.unlockDate != ""
  }

  /** One row of the session history. */
  datatype Entry = Entry(hash: JsVal, date: string, amount: string, recipient: string)

  /** The component state that submitting reads and writes. */
  datatype AppState = AppState(
    walletAddress: string,
    form: Form,
    status: string,
    toast: string,
    loading: bool,
    ipfsHash: JsVal,
    history: seq<Entry>)

  /**
   * The body posted to the back end. Its `message` is the AES ciphertext of
   * `plaintext` under the fixed key; the cipher itself is not modelled.
   */
  datatype SaveRequest = SaveRequest(plaintext: string, unlockDate: string, owner: string, recipient: string,
                                     amount: string)

  /** The decoded reply of the back end, or `NoReply` when the request or its decoding threw. */
  datatype BackendReply = Replied(success: JsVal, ipfsHash: JsVal) | NoReply

  /** `data?.success && data?.ipfsHash`. */
  predicate Accepted(reply: BackendReply) {
    reply.Replied? && Truthy(reply.success) && Truthy(reply.ipfsHash)
  }

  /** All three guards of `handleSubmit` pass. */
  predicate ReadyToSend(st: AppState) {
    st.walletAddress != "" && Filled(st.form) && IsValidRecipient(st.form.recipient)
  }

  /**
   * `saveToBlockchain` once its timer has fired: exactly one entry appended to
   * the history, the hash shown, the form cleared, the wallet kept.
   */
  function AfterSave(st: AppState, hash: JsVal, date: string): (r: AppState)
    ensures r.history == st.history + [Entry(hash, date, st.form.amount, st.form.recipient)]
    ensures r.form == EmptyForm && !Filled(r.form)
    ensures r.ipfsHash == hash && r.status == SavedStatus(hash) && r.toast == SavedToast && !r.loading
    ensures r.walletAddress == st.walletAddress
  {
    AppState(st.walletAddress, EmptyForm, SavedStatus(hash), SavedToast, false, hash,
             st.history + [Entry(hash, date, st.form.amount, st.form.recipient)])
  }

  /** The outcome of `handleSubmit`: the request posted, if any, and the state afterwards. */
  datatype Submission = Submission(request: Option<SaveRequest>, state: AppState)

  /**
   * `handleSubmit`: the guards in order (wallet, required fields, recipient),
   * each only showing a toast; then post the will and, only when the reply
   * carries both `success` and `ipfsHash`, save it.
   */
  function Submit(st: AppState, reply: BackendReply, date: string): (r: Submission)
    ensures r.request.Some? <==> ReadyToSend(st)
    ensures r.request.Some? ==>
              r.request.value == SaveRequest(st.form.secretMessage, st.form.unlockDate, st.walletAddress,
                                             st.form.recipient, st.form.amount)
    ensures st.walletAddress == "" ==> r.state == st.(toast := ConnectWalletToast)
    ensures st.walletAddress != "" && !Filled(st.form) ==> r.state == st.(toast := FillFieldsToast)
    ensures st.walletAddress != "" && Filled(st.form) && !IsValidRecipient(st.form.recipient) ==>
              r.state == st.(toast := InvalidRecipientToast)
    ensures ReadyToSend(st) && Accepted(reply) ==> r.state == AfterSave(st, reply.ipfsHash, date)
    ensures ReadyToSend(st) && reply.Replied? && !Accepted(reply) ==>
              r.state == st.(status := ServerErrorStatus, toast := ServerErrorToast, loading := false)
    ensures ReadyToSend(st) && reply.NoReply? ==>
              r.state == st.(status := BackendDownStatus, toast := BackendDownToast, loading := false)
  {
    if st.walletAddress == "" then Submission(None, st.(toast := ConnectWalletToast))
    else if st.form.recipient == "" || st.form.amount == "" || st.form.unlockDate == "" then
      Submission(None, st.(toast := FillFieldsToast))
    else if !IsValidRecipient(st.form.recipient) then Submission(None, st.(toast := InvalidRecipientToast))
    else
      var request := SaveRequest(st.form.secretMessage, st.form.unlockDate, st.walletAddress, st.form.recipient,
                                 st.form.amount);
      var sending := st.(status := SendingStatus, loading := true);
      match reply
      case NoReply =>
        Submission(Some(request), sending.(loading := false, status := BackendDownStatus, toast := BackendDownToast))
      case Replied(_, hash) =>
        if Accepted(reply) then
          Submission(Some(request), AfterSave(sending.(loading := false), hash, date))
        else
          Submission(Some(request), sending.(loading := false, status := ServerErrorStatus, toast := ServerErrorToast))
  }

  /** The history only grows, by one entry at most, and only for an accepted reply to a sent request. */
  lemma SubmitHistory(st: AppState, reply: BackendReply, date: string)
    ensures var h := Submit(st, reply, date).state.history;
            st.history <= h
            && (|h| == |st.history| + 1 <==> ReadyToSend(st) && Accepted(reply))
            && (|h| != |st.history| + 1 ==> h == st.history)
  {
  }

  /** A second submit straight after a save posts nothing, because the form was cleared. */
  lemma NoSecondSaveWithoutNewInput(st: AppState, reply1: BackendReply, reply2: BackendReply, date1: string,
                                    date2: string)
    requires ReadyToSend(st) && Accepted(reply1)
    ensures var s1 := Submit(st, reply1, date1).state;
            var r2 := Submit(s1, reply2, date2);
            r2.request.None? && r2.state.history == s1.history
  {
  }

  /** The state after submitting once per attempt, in order. */
  function SubmitAll(st: AppState, attempts: seq<(BackendReply, string)>): AppState
    decreases |attempts|
  {
    if attempts == [] then st
    else SubmitAll(Submit(st, attempts[0].0, attempts[0].1).state, attempts[1..])
  }

  /**
   * History is an append-only log over any run of submits: earlier entries are
   * never changed or removed, and each submit adds at most one.
   */
  lemma {:induction false} HistoryAppendOnly(st: AppState, attempts: seq<(BackendReply, string)>)
    ensures st.history <= SubmitAll(st, attempts).history
    ensures |SubmitAll(st, attempts).history| <= |st.history| + |attempts|
    decreases |attempts|
  {
    if attempts != [] {
      var next := Submit(st, attempts[0].0, attempts[0].1).state;
      SubmitHistory(st, attempts[0].0, attempts[0].1);
      HistoryAppendOnly(next, attempts[1..]);
    }
  }

  // ---------------------------------------------------------------------------
  // The component
  // ---------------------------------------------------------------------------

  /**
   * The component's state hooks. The four form inputs, each its own hook in
   * the component, are kept together in `form`.
   */
  class App {
    var walletAddress: string
    var form: Form
    var status: string
    var toast: string
    var loading: bool
    var ipfsHash: JsVal
    var history: seq<Entry>
    var countdown: string
    var decryptedMessage: string

    function State(): AppState
      reads this
    {
      AppState(walletAddress, form, status, toast, loading, ipfsHash, history)
    }

    /** Every hook starts empty; the wallet address is the one a wallet connection set. */
    constructor (wallet: string)
      ensures State() == AppState(wallet, EmptyForm, "", "", false, Str(""), [])
      ensures countdown == "" && decryptedMessage == ""
    {
      walletAddress, form := wallet, EmptyForm;
      status, toast, loading, ipfsHash, history := "", "", false, Str(""), [];
      countdown, decryptedMessage := "", "";
    }

    /** `saveToBlockchain(hash)`, run through to the end of its timer; `date` is the local time then. */
    method SaveToBlockchain(hash: JsVal, date: string)
      modifies this
      ensures State() == AfterSave(old(State()), hash, date)
      ensures countdown == old(countdown) && decryptedMessage == old(decryptedMessage)
    {
      // shown while the wallet confirmation is simulated
      status, loading := AwaitingWalletStatus, true;
      // the timer fires
      loading := false;
      status := SavedStatus(hash);
      ipfsHash := hash;
      history := history + [Entry(hash, date, form.amount, form.recipient)];
      form := EmptyForm;
      toast := SavedToast;
    }

    /** `handleSubmit`, with the back end's reply given. */
    method HandleSubmit(reply: BackendReply, date: string) returns (sent: Option<SaveRequest>)
      modifies this
      ensures Submission(sent, State()) == Submit(old(State()), reply, date)
      ensures countdown == old(countdown) && decryptedMessage == old(decryptedMessage)
    {
      if walletAddress == "" {
        toast := ConnectWalletToast;
        return None;
      }
      if form.recipient == "" || form.amount == "" || form.unlockDate == "" {
        toast := FillFieldsToast;
        return None;
      }
      if !IsValidRecipient(form.recipient) {
        toast := InvalidRecipientToast;
        return None;
      }
      sent := Some(SaveRequest(form.secretMessage, form.unlockDate, walletAddress, form.recipient, form.amount));
      status := SendingStatus;
      loading := true;
      match reply
      case NoReply =>
        loading := false;
        status := BackendDownStatus;
        toast := BackendDownToast;
      case Replied(success, hash) =>
        loading := false;
        if Truthy(success) && Truthy(hash) {
          SaveToBlockchain(hash, date);
        } else {
          status := ServerErrorStatus;
          toast := ServerErrorToast;
        }
    }

    /** One run of `updateCountdown` at instant `now`. */
    method RefreshCountdown(target: Option<int>, now: int, decrypt: Decryption)
      modifies this
      ensures var t := UpdateCountdown(old(form.unlockDate), target, now, old(form.secretMessage), decrypt);
              countdown == t.countdown
              && decryptedMessage == (if t.decrypted.Some? then t.decrypted.value else old(decryptedMessage))
      ensures State() == old(State())
    {
      if form.unlockDate == "" {
        countdown := "";
        return;
      }
      if target.None? {
        countdown := InvalidDateText;
        return;
      }
      var diff := target.value - now;
      if diff <= 0 {
        countdown := UnlockedText;
        if form.secretMessage != "" {
          match decrypt
          case Plaintext(text) =>
            decryptedMessage := if text != "" then text else DecryptFailedText;
          case DecryptError =>
            decryptedMessage := DecryptFailedText;
        }
      } else {
        var r := RemainingTime(diff);
        countdown := RemainingText(r);
      }
    }
  }
}
