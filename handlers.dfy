/** The conversation handlers of bot/handlers.py for one operator in one chat:
    the aiogram router that picks a handler for each update, the steps of the
    payment form, and the save step that builds the Airtable record. The
    form's state and data (aiogram's FSMContext for this chat) are the fields
    of a `PaymentDialog`. What the transport does (sending a message, showing
    a keyboard, resolving a file id to a URL) and what the outside world
    answers are inputs bundled in an `Env`. */
module Handlers {
  import opened Wrappers
  import opened Text
  import opened States
  import opened OrderResolution
  import Airtable
  import Cache

  datatype User = User(id: int, firstName: string, lastName: Option<string>)

  /** `is_authorized`: the user's id is in AUTHORIZED_USERS. */
  predicate IsAuthorized(user: User, allowed: set<int>)
  {
    user.id in allowed
  }

  // ---------------------------------------------------------------------------
  // The form's data
  // ---------------------------------------------------------------------------

  /** The keys the handlers store with `state.update_data`. */
  datatype Key = AttachmentKey | AmountKey | NoteKey | OrderKey | OptionsKey

  /** A stored value: Python's None, a string, a number, a list of strings. */
  datatype Value = Null | Str(s: string) | Num(x: real) | StrList(items: seq<string>)

  /** Python truthiness of a stored value. */
  predicate Truthy(v: Value)
  {
    match v
    case Null => false
    case Str(s) => s != ""
    case Num(x) => x != 0.0
    case StrList(items) => items != []
  }

  /** `data.get(key)`: None for a key never stored. */
  function Get(data: map<Key, Value>, key: Key): Value
  {
    if key in data then data[key] else Null
  }

  // ---------------------------------------------------------------------------
  // Updates, replies and the environment
  // ---------------------------------------------------------------------------

  /** The media parts of a message: its photo sizes (largest last), and the
      document, video and audio file ids. */
  datatype Media = Media(photo: seq<string>, document: Option<string>, video: Option<string>, audio: Option<string>)

  /** The file id `start_payment_by_attachment` stores. */
  function FileId(m: Media): Value
  {
    if m.photo != [] then Str(m.photo[|m.photo| - 1])
    else if m.document.Some? then Str(m.document.value)
    else if m.video.Some? then Str(m.video.value)
    else if m.audio.Some? then Str(m.audio.value)
    else Null
  }

  /** An update from the operator. */
  datatype Event =
    | TextMessage(text: string)      // a message with text
    | MediaMessage(media: Media, caption: Option<string>)  // a photo, document, video or audio message
    | OtherMessage(caption: Option<string>)                // any other message (a sticker, a voice note, ...)
    | Callback(data: string)         // an inline button was pressed

  /** What the bot sends. Keyboards other than the order choice are left out. */
  datatype Reply =
    | Say(text: string)
    | Choose(prompt: string, buttons: seq<Button>)
    | Confirm(summary: Summary)

  /** The environment of one update: the clock, what fetching the orders from
      Airtable returned or raised, the fuzzy scorer, Python's `float` (None
      where it raises ValueError), whether the order menu could be sent,
      the URL `bot.get_file` resolves the attachment to (None where it
      raises), and what each `create_record` attempt produces. */
  datatype Env = Env(
    now: real,
    fetched: Result<seq<string>>,
    scorer: Scorer,
    parseFloat: string -> Option<real>,
    menuSent: bool,
    fileUrl: Option<string>,
    attempts: seq<Airtable.Attempt>)

  const AddPaymentText: string := "Добавить оплату"
  const SkipText: string := "Пропустить"
  const CancelText: string := "Отмена"

  const WelcomeMessage: string := "Добро пожаловать!\nНажмите кнопку ниже, чтобы добавить оплату"
  const NoAccessToBot: string := "🚫 У вас нет доступа к этому боту"
  const NoAccessToAction: string := "🚫 У вас нет доступа к этому действию"
  const AskAttachment: string := "Добавьте вложение:"
  const AskAmount: string := "Введите сумму:"
  const AskNote: string := "Введите примечание:"
  const AskOrder: string := "Введите номер заказа:"
  const NotPositive: string := "❌ Введите положительное число"
  const ChooseOrder: string := "Выберите заказ:"
  const OrdersNotFound: string := "❌ Не удалось найти заказы"
  const NoActiveDialog: string := "Нет активного диалога"
  const DialogCancelled: string := "Диалог отменён"

  function SaveFailedMessage(error: string): string
  {
    "Произошла ошибка при сохранении в Airtable:\n<code>" + error + "</code>"
  }

  /** `CommandStart()` on a message's text or caption: its first
      whitespace-separated word is "/start", or "/start@" with an empty bot
      mention, which aiogram reads as no mention; whatever follows is the
      argument. */
  predicate IsStartCommand(text: string)
  {
    var words := Split(text);
    words != [] && (words[0] == "/start" || words[0] == "/start@")
  }

  /** A start command contains '/', so no text without one (a keyboard
      button's label, say) is taken for it. */
  lemma StartCommandHasSlash(text: string)
    requires IsStartCommand(text)
    ensures '/' in text
  {
    FirstWordOccurs(text);
  }

  /** The note `process_note` stores for a text other than the two buttons:
      the stripped text, and "" for an empty one, which is what stripping
      gives as well. */
  function NoteText(text: string): (note: string)
    ensures note == Strip(text)
  {
    if text != "" then Strip(text)
    else
      assert |Strip(text)| == 0;
      ""
  }

  // ---------------------------------------------------------------------------
  // Routing
  // ---------------------------------------------------------------------------

  datatype Handler =
    | OnStart | OnAddPayment | OnAttachment | OnCancel | OnSkipAttachment
    | OnAmount | OnNote | OnOrder | OnSelection | NoHandler

  /** The handler aiogram runs for an update: the first one registered whose
      filters accept it. */
  function Route(state: Option<FormState>, ev: Event): Handler
  {
    match ev
    case TextMessage(t) =>
      if IsStartCommand(t) then OnStart
      else if t == AddPaymentText then OnAddPayment
      else if t == CancelText then OnCancel
      else if state == Some(Attachment) && t == SkipText then OnSkipAttachment
      else if t == "" then NoHandler   // the step handlers' `F.text` wants a non-empty text
      else if state == Some(Amount) then OnAmount
      else if state == Some(Note) then OnNote
      else if state == Some(Order) then OnOrder
      else NoHandler
    case MediaMessage(_, caption) =>
      if caption.Some? && IsStartCommand(caption.value) then OnStart else OnAttachment
    case OtherMessage(caption) =>
      if caption.Some? && IsStartCommand(caption.value) then OnStart else NoHandler
    case Callback(d) =>
      if state == Some(OrderSelection) && StartsWith(d, CallbackPrefix) then OnSelection else NoHandler
  }

  /** A text without '/' is not a start command. */
  lemma NoSlashNoStart(text: string)
    requires '/' !in text
    ensures !IsStartCommand(text)
  {
    if IsStartCommand(text) {
      StartCommandHasSlash(text);
    }
  }

  /** "Отмена" reaches the cancel handler in every state, ahead of the step
      handlers; "Добавить оплату" and an attachment whose caption is not a
      start command start the form from any state. */
  lemma EscapesWorkEverywhere(state: Option<FormState>, m: Media, caption: Option<string>)
    ensures Route(state, TextMessage(CancelText)) == OnCancel
    ensures Route(state, TextMessage(AddPaymentText)) == OnAddPayment
    ensures caption.None? || !IsStartCommand(caption.value) ==>
              Route(state, MediaMessage(m, caption)) == OnAttachment
  {
    CancelRoutesEverywhere(state);
    AddPaymentRoutesEverywhere(state);
  }

  lemma CancelRoutesEverywhere(state: Option<FormState>)
    ensures Route(state, TextMessage(CancelText)) == OnCancel
  {
    NoSlashNoStart(CancelText);
  }

  lemma AddPaymentRoutesEverywhere(state: Option<FormState>)
    ensures Route(state, TextMessage(AddPaymentText)) == OnAddPayment
  {
    NoSlashNoStart(AddPaymentText);
  }

  /** Each step handler runs only in its own step of the form. */
  lemma StepHandlersNeedTheirStep(state: Option<FormState>, ev: Event)
    ensures Route(state, ev) == OnSkipAttachment ==> state == Some(Attachment) && ev == TextMessage(SkipText)
    ensures Route(state, ev) == OnAmount ==> state == Some(Amount) && ev.TextMessage?
    ensures Route(state, ev) == OnNote ==> state == Some(Note) && ev.TextMessage?
    ensures Route(state, ev) == OnOrder ==> state == Some(Order) && ev.TextMessage?
    ensures Route(state, ev) == OnSelection ==> state == Some(OrderSelection) && StartsWith(ev.data, CallbackPrefix)
  {
  }

  /** Without an active form, only the start, cancel and form-starting
      handlers run. */
  lemma IdleRoutes(ev: Event)
    ensures Route(None, ev) in {OnStart, OnAddPayment, OnAttachment, OnCancel, NoHandler}
  {
  }

  // ---------------------------------------------------------------------------
  // The Airtable record and the confirmation
  // ---------------------------------------------------------------------------

  /** The fields dict `_save_data_and_finish` sends, with one slot per
      field it may hold, in insertion order: "Отправитель", "Сумма",
      "Примечание", "Заказ", "Вложение" (a field absent from the dict is
      `None`). The attachment field holds the URLs of `[{"url": u}]`. */
  datatype Fields = Fields(
    sender: string,
    amount: Option<Value>,
    note: Option<Value>,
    order: Option<Value>,
    attachment: Option<seq<string>>)

  /** A stored value that goes into the record only when truthy. */
  function Optional(data: map<Key, Value>, key: Key): Option<Value>
  {
    if Truthy(Get(data, key)) then Some(Get(data, key)) else None
  }

  /** The record `_save_data_and_finish` sends: the sender always, as
      `first_name` followed by " " and `last_name` when that is set; amount,
      note and order exactly when their stored value is truthy, and then
      that value; the attachment when a file id is stored and its URL could
      be resolved. */
  ghost predicate IsRecordFor(fields: Fields, user: User, data: map<Key, Value>, fileUrl: Option<string>)
  {
    && fields.sender == (if user.lastName.Some? && user.lastName.value != ""
                         then user.firstName + " " + user.lastName.value else user.firstName)
    && (fields.amount.Some? <==> Truthy(Get(data, AmountKey)))
    && (fields.note.Some? <==> Truthy(Get(data, NoteKey)))
    && (fields.order.Some? <==> Truthy(Get(data, OrderKey)))
    && (fields.amount.Some? ==> fields.amount.value == data[AmountKey])
    && (fields.note.Some? ==> fields.note.value == data[NoteKey])
    && (fields.order.Some? ==> fields.order.value == data[OrderKey])
    && fields.attachment == (if Truthy(Get(data, AttachmentKey)) && fileUrl.Some? then Some([fileUrl.value]) else None)
  }

  /** The part of `_save_data_and_finish` that fills the `fields` dict. */
  method BuildFields(user: User, data: map<Key, Value>, fileUrl: Option<string>) returns (fields: Fields)
    ensures IsRecordFor(fields, user, data, fileUrl)
  {
    var senderName := user.firstName;
    if user.lastName.Some? && user.lastName.value != "" {
      senderName := senderName + " " + user.lastName.value;
    }
    fields := Fields(senderName, None, None, None, None);
    if Truthy(Get(data, AmountKey)) {
      fields := fields.(amount := Some(Get(data, AmountKey)));
    }
    if Truthy(Get(data, NoteKey)) {
      fields := fields.(note := Some(Get(data, NoteKey)));
    }
    if Truthy(Get(data, OrderKey)) {
      fields := fields.(order := Some(Get(data, OrderKey)));
    }
    if Truthy(Get(data, AttachmentKey)) && fileUrl.Some? {
      fields := fields.(attachment := Some([fileUrl.value]));
    }
  }

  /** The confirmation message (`result_lines`): after the header
      "✅ Запись добавлена:", a line per slot in this order, each present or
      not; the sender's line always comes last. */
  datatype Summary = Summary(
    order: Option<Value>,
    attachment: bool,
    amount: Option<Value>,
    note: Option<Value>,
    sender: string)

  /** The confirmation shows order, amount and note exactly when their stored
      value is truthy, the attachment mark when a file id is stored (whether
      or not its URL was resolved), and the sender. */
  ghost predicate IsSummaryFor(summary: Summary, sender: string, data: map<Key, Value>)
  {
    && summary.sender == sender
    && summary.order == Optional(data, OrderKey)
    && summary.attachment == Truthy(Get(data, AttachmentKey))
    && summary.amount == Optional(data, AmountKey)
    && summary.note == Optional(data, NoteKey)
  }

  /** The part of `_save_data_and_finish` that fills `result_lines`. */
  method BuildSummary(sender: string, data: map<Key, Value>) returns (summary: Summary)
    ensures IsSummaryFor(summary, sender, data)
  {
    summary := Summary(None, false, None, None, sender);
    if Truthy(Get(data, OrderKey)) {
      summary := summary.(order := Some(Get(data, OrderKey)));
    }
    if Truthy(Get(data, AttachmentKey)) {
      summary := summary.(attachment := true);
    }
    if Truthy(Get(data, AmountKey)) {
      summary := summary.(amount := Some(Get(data, AmountKey)));
    }
    if Truthy(Get(data, NoteKey)) {
      summary := summary.(note := Some(Get(data, NoteKey)));
    }
  }

  /** The message `_save_data_and_finish` sends once `create_record` has
      returned or raised. */
  ghost predicate IsSaveReply(reply: Reply, sender: string, data: map<Key, Value>, attempts: seq<Airtable.Attempt>)
    requires |attempts| >= Airtable.MaxAttempts
  {
    var created := Airtable.CreateOutcome(attempts);
    if created.Ok? then reply.Confirm? && IsSummaryFor(reply.summary, sender, data)
    else reply == Say(SaveFailedMessage(created.error))
  }

  // ---------------------------------------------------------------------------
  // One operator's dialog
  // ---------------------------------------------------------------------------

  class PaymentDialog {
    const user: User
    /** AUTHORIZED_USERS. */
    const allowed: set<int>
    /** The form step, None when no dialog is active. */
    var state: Option<FormState>
    var data: map<Key, Value>

    /** An operator who is not authorized never has a form. */
    ghost predicate Valid()
      reads this
    {
      !IsAuthorized(user, allowed) ==> state == None && data == map[]
    }

    /** The end of a handler that saved: the form is cleared, `record` is
        what was sent to Airtable for `saved`, and `reply` reports it. */
    ghost predicate Finished(saved: map<Key, Value>, env: Env, record: Fields, reply: Reply)
      reads this
      requires |env.attempts| >= Airtable.MaxAttempts
    {
      && state == None && data == map[]
      && IsRecordFor(record, user, saved, env.fileUrl)
      && IsSaveReply(reply, record.sender, saved, env.attempts)
    }

    // -------------------------------------------------------------------------
    // What each handler leaves behind, given the state `before` and the data
    // `saved` it started from
    // -------------------------------------------------------------------------

    /** `start_payment_by_button`: an authorized operator is (re)started at
        the attachment step with the stored data kept; anyone else is
        refused and nothing changes. */
    ghost predicate ButtonStarted(before: Option<FormState>, saved: map<Key, Value>, replies: seq<Reply>)
      reads this
    {
      if IsAuthorized(user, allowed) then
        replies == [Say(AskAttachment)] && state == Some(Attachment) && data == saved
      else
        replies == [Say(NoAccessToAction)] && state == before && data == saved
    }

    /** `start_payment_by_attachment`: from any state, the file id is stored
        and the form goes to the amount step; anyone not authorized is
        refused and nothing changes. */
    ghost predicate AttachmentStarted(media: Media, before: Option<FormState>, saved: map<Key, Value>, replies: seq<Reply>)
      reads this
    {
      if IsAuthorized(user, allowed) then
        replies == [Say(AskAmount)] && state == Some(Amount) && data == saved[AttachmentKey := FileId(media)]
      else
        replies == [Say(NoAccessToAction)] && state == before && data == saved
    }

    /** `handle_cancel`: without an active dialog nothing changes; otherwise
        state and data are cleared. */
    ghost predicate Cancelled(before: Option<FormState>, saved: map<Key, Value>, replies: seq<Reply>)
      reads this
    {
      if before == None then replies == [Say(NoActiveDialog)] && state == None && data == saved
      else replies == [Say(DialogCancelled)] && state == None && data == map[]
    }

    /** `skip_attachment`: no attachment is recorded and the form advances. */
    ghost predicate AttachmentSkipped(saved: map<Key, Value>, replies: seq<Reply>)
      reads this
    {
      replies == [Say(AskAmount)] && state == Some(Next(Attachment)) && data == saved[AttachmentKey := Null]
    }

    /** `process_amount` on `text`: skipping records no amount, a positive
        number is recorded, and both advance; anything else is refused and
        nothing changes. */
    ghost predicate AmountTaken(text: string, parseFloat: string -> Option<real>, saved: map<Key, Value>, replies: seq<Reply>)
      reads this
    {
      if text == SkipText then
        replies == [Say(AskNote)] && state == Some(Next(Amount)) && data == saved[AmountKey := Null]
      else if text == CancelText then
        replies == [Say(DialogCancelled)] && state == None && data == map[]
      else
        var parsed := parseFloat(ReplaceChar(Strip(text), ',', '.'));
        if parsed.Some? && parsed.value > 0.0 then
          replies == [Say(AskNote)] && state == Some(Next(Amount)) && data == saved[AmountKey := Num(parsed.value)]
        else
          replies == [Say(NotPositive)] && state == Some(Amount) && data == saved
    }

    /** `process_note` on `text`: skipping records the empty note, any other
        text is recorded stripped, and both advance. */
    ghost predicate NoteTaken(text: string, saved: map<Key, Value>, replies: seq<Reply>)
      reads this
    {
      if text == SkipText then
        replies == [Say(AskOrder)] && state == Some(Next(Note)) && data == saved[NoteKey := Str("")]
      else if text == CancelText then
        replies == [Say(DialogCancelled)] && state == None && data == map[]
      else
        replies == [Say(AskOrder)] && state == Some(Next(Note)) && data == saved[NoteKey := Str(Strip(text))]
    }

    /** How the order step ends once the orders were looked up for the raw
        input `raw`, with `got` what `get_orders` returned or raised: a
        failed lookup is reported and the raw input saved as the order; no
        orders, or a menu that could not be sent, saves the raw input as the
        order; otherwise the menu of `Options` is shown, the options are
        stored and the form waits for the choice. */
    ghost predicate Resolved(raw: string, got: Result<seq<string>>, env: Env, saved: map<Key, Value>,
                             replies: seq<Reply>, record: Option<Fields>)
      reads this
      requires |env.attempts| >= Airtable.MaxAttempts
    {
      if got.Err? then
        record.Some? && |replies| == 2 && replies[0] == Say(OrdersNotFound)
        && Finished(saved[OrderKey := Str(raw)], env, record.value, replies[1])
      else if got.value == [] || !env.menuSent then
        record.Some? && |replies| == 1
        && Finished(saved[OrderKey := Str(raw)], env, record.value, replies[0])
      else
        && record.None? && |replies| == 1 && replies[0].Choose? && replies[0].prompt == ChooseOrder
        && state == Some(OrderSelection)
        && OptionsKey in data && data == saved[OptionsKey := data[OptionsKey]]
        && data[OptionsKey].StrList?
        && ButtonsFor(replies[0].buttons, data[OptionsKey].items)
        && exists picked :: OptionsFrom(data[OptionsKey].items, picked, raw, got.value, env.scorer)
    }

    /** `process_order` on `text`, with the cache file going from `fileBefore`
        to `fileAfter`: "Пропустить" saves an empty order, a shortcut is saved
        as typed (stripped), both without touching the cache; any other input
        is resolved against what `get_orders` gives. */
    ghost predicate OrderTaken(text: string, fileBefore: Option<Cache.CacheFile>, fileAfter: Option<Cache.CacheFile>,
                               env: Env, saved: map<Key, Value>, replies: seq<Reply>, record: Option<Fields>)
      reads this
      requires |env.attempts| >= Airtable.MaxAttempts
    {
      if text == SkipText then
        fileAfter == fileBefore && record.Some? && |replies| == 1
        && Finished(saved[OrderKey := Str("")], env, record.value, replies[0])
      else if text == CancelText then
        fileAfter == fileBefore && record.None?
        && replies == [Say(DialogCancelled)] && state == None && data == map[]
      else if IsShortcut(Lower(Strip(text))) then
        fileAfter == fileBefore && record.Some? && |replies| == 1
        && Finished(saved[OrderKey := Str(Strip(text))], env, record.value, replies[0])
      else
        var got := Cache.GetOrders(fileBefore, env.now, env.fetched);
        fileAfter == got.file && Resolved(Strip(text), got.result, env, saved, replies, record)
    }

    /** `handle_order_selection`: the callback data after "order:" is saved
        as the order. */
    ghost predicate OrderSelected(callbackData: string, env: Env, saved: map<Key, Value>, replies: seq<Reply>, record: Option<Fields>)
      reads this
      requires StartsWith(callbackData, CallbackPrefix) && |env.attempts| >= Airtable.MaxAttempts
    {
      record.Some? && |replies| == 1
      && Finished(saved[OrderKey := Str(SelectedOrder(callbackData))], env, record.value, replies[0])
    }

    /** What the handler `h` leaves behind for the update `ev`, from the
        state `before` and the data `saved`, with the cache file going from
        `fileBefore` to `fileAfter`: `cmd_start` only answers, and no
        handler but the order steps sends a record or touches the cache. */
    ghost predicate Handled(h: Handler, ev: Event, env: Env, before: Option<FormState>, saved: map<Key, Value>,
                            fileBefore: Option<Cache.CacheFile>, fileAfter: Option<Cache.CacheFile>,
                            replies: seq<Reply>, record: Option<Fields>)
      reads this
      requires |env.attempts| >= Airtable.MaxAttempts
    {
      && (h !in {OnOrder, OnSelection} ==> record.None?)
      && (h != OnOrder ==> fileAfter == fileBefore)
      && match h
         case OnStart =>
           replies == [Say(if IsAuthorized(user, allowed) then WelcomeMessage else NoAccessToBot)]
           && state == before && data == saved
         case OnAddPayment => ButtonStarted(before, saved, replies)
         case OnAttachment => ev.MediaMessage? && AttachmentStarted(ev.media, before, saved, replies)
         case OnCancel => Cancelled(before, saved, replies)
         case OnSkipAttachment => AttachmentSkipped(saved, replies)
         case OnAmount => ev.TextMessage? && AmountTaken(ev.text, env.parseFloat, saved, replies)
         case OnNote => ev.TextMessage? && NoteTaken(ev.text, saved, replies)
         case OnOrder => ev.TextMessage? && OrderTaken(ev.text, fileBefore, fileAfter, env, saved, replies, record)
         case OnSelection =>
           ev.Callback? && StartsWith(ev.data, CallbackPrefix) && OrderSelected(ev.data, env, saved, replies, record)
         case NoHandler => replies == [] && state == before && data == saved
    }

    // -------------------------------------------------------------------------
    // The handlers
    // -------------------------------------------------------------------------

    constructor (user: User, allowed: set<int>)
      ensures this.user == user && this.allowed == allowed
      ensures state == None && data == map[]
      ensures Valid()
    {
      this.user := user;
      this.allowed := allowed;
      state := None;
      data := map[];
    }

    /** `cmd_start`. */
    method Start() returns (replies: seq<Reply>)
      ensures replies == [Say(if IsAuthorized(user, allowed) then WelcomeMessage else NoAccessToBot)]
    {
      if !IsAuthorized(user, allowed) {
        return [Say(NoAccessToBot)];
      }
      replies := [Say(WelcomeMessage)];
    }

    /** `start_payment_by_button`. */
    method StartByButton() returns (replies: seq<Reply>)
      requires Valid()
      modifies this
      ensures Valid() && ButtonStarted(old(state), old(data), replies)
    {
      if !IsAuthorized(user, allowed) {
        return [Say(NoAccessToAction)];
      }
      replies := [Say(AskAttachment)];
      state := Some(Attachment);
    }

    /** `start_payment_by_attachment`. */
    method StartByAttachment(media: Media) returns (replies: seq<Reply>)
      requires Valid()
      modifies this
      ensures Valid() && AttachmentStarted(media, old(state), old(data), replies)
    {
      if !IsAuthorized(user, allowed) {
        return [Say(NoAccessToAction)];
      }
      data := data[AttachmentKey := FileId(media)];
      replies := [Say(AskAmount)];
      state := Some(Amount);
    }

    /** `handle_cancel`. */
    method Cancel() returns (replies: seq<Reply>)
      requires Valid()
      modifies this
      ensures Valid() && Cancelled(old(state), old(data), replies)
    {
      if state == None {
        return [Say(NoActiveDialog)];
      }
      state, data := None, map[];
      replies := [Say(DialogCancelled)];
    }

    /** `skip_attachment`. */
    method SkipAttachment() returns (replies: seq<Reply>)
      requires Valid() && state == Some(Attachment)
      modifies this
      ensures Valid() && AttachmentSkipped(old(data), replies)
    {
      data := data[AttachmentKey := Null];
      replies := [Say(AskAmount)];
      state := Some(Amount);
    }

    /** `process_amount`. `parseFloat` is Python's `float`, applied to the
        stripped text with commas turned into points. */
    method ProcessAmount(text: string, parseFloat: string -> Option<real>) returns (replies: seq<Reply>)
      requires Valid() && state == Some(Amount)
      modifies this
      ensures Valid() && AmountTaken(text, parseFloat, old(data), replies)
    {
      if text == SkipText {
        data := data[AmountKey := Null];
        replies := [Say(AskNote)];
        state := Some(Note);
        return;
      }
      if text == CancelText {
        replies := Cancel();
        return;
      }
      var amountText := ReplaceChar(Strip(text), ',', '.');
      var parsed := parseFloat(amountText);
      if parsed.None? || parsed.value <= 0.0 {
        return [Say(NotPositive)];
      }
      data := data[AmountKey := Num(parsed.value)];
      replies := [Say(AskNote)];
      state := Some(Note);
    }

    /** `process_note`. */
    method ProcessNote(text: string) returns (replies: seq<Reply>)
      requires Valid() && state == Some(Note)
      modifies this
      ensures Valid() && NoteTaken(text, old(data), replies)
    {
      if text == SkipText {
        data := data[NoteKey := Str("")];
        replies := [Say(AskOrder)];
        state := Some(Order);
        return;
      }
      if text == CancelText {
        replies := Cancel();
        assert replies == [Say(DialogCancelled)] && state == None && data == map[];
        return;
      }
      var noteText := NoteText(text);
      data := data[NoteKey := Str(noteText)];
      replies := [Say(AskOrder)];
      state := Some(Order);
    }

    /** `_save_data_and_finish`: builds the record, calls `create_record`,
        reports the outcome and clears the form whatever the outcome. */
    method SaveAndFinish(env: Env) returns (replies: seq<Reply>, record: Fields)
      requires Valid() && |env.attempts| >= Airtable.MaxAttempts
      requires IsAuthorized(user, allowed)
      modifies this
      ensures Valid()
      ensures |replies| == 1 && Finished(old(data), env, record, replies[0])
    {
      record := BuildFields(user, data, env.fileUrl);
      var created, _ := Airtable.CreateRecord(record, env.attempts);
      if created.Ok? {
        var summary := BuildSummary(record.sender, data);
        replies := [Confirm(summary)];
      } else {
        replies := [Say(SaveFailedMessage(created.error))];
      }
      state, data := None, map[];
    }

    /** The `try` block of `process_order`: looks the orders up and offers
        the matches. */
    method LookUpOrder(raw: string, cache: Cache.OrdersCache, env: Env)
      returns (replies: seq<Reply>, record: Option<Fields>)
      requires Valid() && IsAuthorized(user, allowed) && |env.attempts| >= Airtable.MaxAttempts
      modifies this, cache
      ensures Valid()
      ensures var got := Cache.GetOrders(old(cache.file), env.now, env.fetched);
              cache.file == got.file && Resolved(raw, got.result, env, old(data), replies, record)
    {
      var got := cache.GetOrdersNow(env.now, env.fetched);
      if got.Err? {
        // the `except Exception` around the lookup
        data := data[OrderKey := Str(raw)];
        var saved, fields := SaveAndFinish(env);
        return [Say(OrdersNotFound)] + saved, Some(fields);
      }
      var orders := got.value;
      if orders == [] {
        data := data[OrderKey := Str(raw)];
        var fields;
        replies, fields := SaveAndFinish(env);
        return replies, Some(fields);
      }
      var options, picked := Options(raw, orders, env.scorer);
      var buttons := Buttons(options);
      if !env.menuSent {
        // sending the menu raised: the raw input is taken as the order
        data := data[OrderKey := Str(raw)];
        var fields;
        replies, fields := SaveAndFinish(env);
        return replies, Some(fields);
      }
      replies := [Choose(ChooseOrder, buttons)];
      data := data[OptionsKey := StrList(options)];
      state := Some(OrderSelection);
      record := None;
    }

    /** `process_order`: "Пропустить" saves an empty order, "Отмена" cancels,
        a shortcut is saved as typed (stripped) without looking the orders
        up, and any other input goes to `LookUpOrder`. */
    method ProcessOrder(text: string, cache: Cache.OrdersCache, env: Env)
      returns (replies: seq<Reply>, record: Option<Fields>)
      requires Valid() && state == Some(Order) && |env.attempts| >= Airtable.MaxAttempts
      modifies this, cache
      ensures Valid()
      ensures state == None || state == Some(OrderSelection)
      ensures OrderTaken(text, old(cache.file), cache.file, env, old(data), replies, record)
    {
      if text == SkipText {
        data := data[OrderKey := Str("")];
        var fields;
        replies, fields := SaveAndFinish(env);
        return replies, Some(fields);
      }
      if text == CancelText {
        replies := Cancel();
        return replies, None;
      }
      var raw := Strip(text);
      var norm := Lower(raw);
      if IsShortcut(norm) {
        data := data[OrderKey := Str(raw)];
        var fields;
        replies, fields := SaveAndFinish(env);
        return replies, Some(fields);
      }
      replies, record := LookUpOrder(raw, cache, env);
    }

    /** `handle_order_selection`: the text after "order:" becomes the order,
        whether or not it was one of the options offered. */
    method SelectOrder(callbackData: string, env: Env) returns (replies: seq<Reply>, record: Fields)
      requires Valid() && state == Some(OrderSelection) && StartsWith(callbackData, CallbackPrefix)
      requires |env.attempts| >= Airtable.MaxAttempts
      modifies this
      ensures Valid() && state == None
      ensures OrderSelected(callbackData, env, old(data), replies, Some(record))
    {
      var selected := callbackData[|CallbackPrefix|..];
      data := data[OrderKey := Str(selected)];
      replies, record := SaveAndFinish(env);
    }

    /** The handlers reached without an active form step: `cmd_start`, the
        two ways to start the form and "Отмена", or none. */
    method EntryStep(h: Handler, ev: Event, env: Env, ghost file: Option<Cache.CacheFile>) returns (replies: seq<Reply>)
      requires Valid() && |env.attempts| >= Airtable.MaxAttempts
      requires h == Route(state, ev) && h in {OnStart, OnAddPayment, OnAttachment, OnCancel, NoHandler}
      modifies this
      ensures Valid() && Handled(h, ev, env, old(state), old(data), file, file, replies, None)
    {
      match h {
        case OnStart =>
          replies := Start();
        case OnAddPayment =>
          replies := StartByButton();
        case OnAttachment =>
          replies := StartByAttachment(ev.media);
        case OnCancel =>
          replies := Cancel();
        case NoHandler =>
          replies := [];
      }
    }

    /** The handlers of the first form steps. */
    method FormStep(h: Handler, ev: Event, env: Env, ghost file: Option<Cache.CacheFile>) returns (replies: seq<Reply>)
      requires Valid() && |env.attempts| >= Airtable.MaxAttempts
      requires h == Route(state, ev) && h in {OnSkipAttachment, OnAmount, OnNote}
      modifies this
      ensures Valid() && Handled(h, ev, env, old(state), old(data), file, file, replies, None)
    {
      match h {
        case OnSkipAttachment =>
          replies := SkipAttachment();
        case OnAmount =>
          replies := ProcessAmount(ev.text, env.parseFloat);
        case OnNote =>
          replies := ProcessNote(ev.text);
      }
    }

    /** The handlers of the order steps. */
    method OrderStep(h: Handler, ev: Event, cache: Cache.OrdersCache, env: Env)
      returns (replies: seq<Reply>, record: Option<Fields>)
      requires Valid() && |env.attempts| >= Airtable.MaxAttempts
      requires h == Route(state, ev) && h in {OnOrder, OnSelection}
      modifies this, cache
      ensures Valid()
      ensures Handled(h, ev, env, old(state), old(data), old(cache.file), cache.file, replies, record)
    {
      if h == OnOrder {
        replies, record := ProcessOrder(ev.text, cache, env);
      } else {
        var fields;
        replies, fields := SelectOrder(ev.data, env);
        record := Some(fields);
      }
    }

    /** Whatever handler runs, the form stays where it was, finishes or is
        cancelled, is (re)started, or moves one step forward; a record is
        sent only from the order and selection steps; and an operator who
        is not authorized gets neither a form nor a record. */
    lemma HandledMovesAlongTheForm(h: Handler, ev: Event, env: Env, before: Option<FormState>, saved: map<Key, Value>,
                                   fileBefore: Option<Cache.CacheFile>, fileAfter: Option<Cache.CacheFile>,
                                   replies: seq<Reply>, record: Option<Fields>)
      requires |env.attempts| >= Airtable.MaxAttempts
      requires !IsAuthorized(user, allowed) ==> before == None && saved == map[]
      requires h == Route(before, ev)
      requires Handled(h, ev, env, before, saved, fileBefore, fileAfter, replies, record)
      ensures || state == before
              || state == None
              || (h == OnAddPayment && state == Some(Attachment))
              || (h == OnAttachment && state == Some(Amount))
              || (before.Some? && before.value != OrderSelection && state == Some(Next(before.value)))
      ensures record.Some? ==> before == Some(Order) || before == Some(OrderSelection)
      ensures !IsAuthorized(user, allowed) ==> record.None?
    {
      StepHandlersNeedTheirStep(before, ev);
      IdleRoutes(ev);
      if h == OnOrder {
        OrderTakenEndsOrChooses(ev.text, fileBefore, fileAfter, env, saved, replies, record);
      } else if h == OnSelection {
        assert OrderSelected(ev.data, env, saved, replies, record);
      } else {
        HandledFormStep(h, ev, env, before, saved, fileBefore, fileAfter, replies, record);
      }
    }

    /** The handlers other than the order steps leave the form where it was,
        end it, (re)start it, or move it one step forward. */
    lemma HandledFormStep(h: Handler, ev: Event, env: Env, before: Option<FormState>, saved: map<Key, Value>,
                          fileBefore: Option<Cache.CacheFile>, fileAfter: Option<Cache.CacheFile>,
                          replies: seq<Reply>, record: Option<Fields>)
      requires |env.attempts| >= Airtable.MaxAttempts
      requires h == Route(before, ev) && h !in {OnOrder, OnSelection}
      requires Handled(h, ev, env, before, saved, fileBefore, fileAfter, replies, record)
      ensures || state == before
              || state == None
              || (h == OnAddPayment && state == Some(Attachment))
              || (h == OnAttachment && state == Some(Amount))
              || (before.Some? && before.value != OrderSelection && state == Some(Next(before.value)))
    {
      StepHandlersNeedTheirStep(before, ev);
      match h {
        case OnStart =>
        case NoHandler =>
        case OnAddPayment =>
          assert ButtonStarted(before, saved, replies);
        case OnAttachment =>
          assert AttachmentStarted(ev.media, before, saved, replies);
        case OnCancel =>
          assert Cancelled(before, saved, replies);
        case OnSkipAttachment =>
          assert AttachmentSkipped(saved, replies);
          assert state == Some(Next(Attachment));
        case OnAmount =>
          assert AmountTaken(ev.text, env.parseFloat, saved, replies);
          assert state == Some(Amount) || state == None || state == Some(Next(Amount));
        case OnNote =>
          assert NoteTaken(ev.text, saved, replies);
          assert state == None || state == Some(Next(Note));
      }
    }

    /** The order step ends the form or moves on to the choice. */
    lemma OrderTakenEndsOrChooses(text: string, fileBefore: Option<Cache.CacheFile>, fileAfter: Option<Cache.CacheFile>,
                                  env: Env, saved: map<Key, Value>, replies: seq<Reply>, record: Option<Fields>)
      requires |env.attempts| >= Airtable.MaxAttempts
      requires OrderTaken(text, fileBefore, fileAfter, env, saved, replies, record)
      ensures state == None || (state == Some(OrderSelection) && record.None?)
    {
      if text == SkipText {
        assert Finished(saved[OrderKey := Str("")], env, record.value, replies[0]);
      } else if text == CancelText {
      } else if IsShortcut(Lower(Strip(text))) {
        assert Finished(saved[OrderKey := Str(Strip(text))], env, record.value, replies[0]);
      } else {
        var got := Cache.GetOrders(fileBefore, env.now, env.fetched);
        ResolvedEndsOrChooses(Strip(text), got.result, env, saved, replies, record);
      }
    }

    /** So does every way the lookup can end. */
    lemma ResolvedEndsOrChooses(raw: string, got: Result<seq<string>>, env: Env, saved: map<Key, Value>,
                                replies: seq<Reply>, record: Option<Fields>)
      requires |env.attempts| >= Airtable.MaxAttempts
      requires Resolved(raw, got, env, saved, replies, record)
      ensures state == None || (state == Some(OrderSelection) && record.None?)
    {
      if got.Err? {
        assert Finished(saved[OrderKey := Str(raw)], env, record.value, replies[1]);
      } else if got.value == [] || !env.menuSent {
        assert Finished(saved[OrderKey := Str(raw)], env, record.value, replies[0]);
      }
    }

    /** The router: runs the handler `Route` picks for the update, or does
        nothing when none accepts it. */
    method Receive(ev: Event, cache: Cache.OrdersCache, env: Env)
      returns (replies: seq<Reply>, record: Option<Fields>)
      requires Valid() && |env.attempts| >= Airtable.MaxAttempts
      modifies this, cache
      ensures Valid()
      ensures Handled(Route(old(state), ev), ev, env, old(state), old(data), old(cache.file), cache.file, replies, record)
      // the form stays, finishes or is cancelled, is (re)started, or moves one step forward
      ensures || state == old(state)
              || state == None
              || (Route(old(state), ev) == OnAddPayment && state == Some(Attachment))
              || (Route(old(state), ev) == OnAttachment && state == Some(Amount))
              || (old(state).Some? && old(state).value != OrderSelection && state == Some(Next(old(state).value)))
      // a record is sent only from the order and selection steps
      ensures record.Some? ==> old(state) == Some(Order) || old(state) == Some(OrderSelection)
      // an operator who is not authorized never gets a form nor a record
      ensures !IsAuthorized(user, allowed) ==> state == None && data == map[] && record.None?
      // cancel: nothing to cancel, or everything is cleared
      ensures ev == TextMessage(CancelText) ==>
                record.None? && state == None
                && (old(state) == None ==> replies == [Say(NoActiveDialog)] && data == old(data))
                && (old(state) != None ==> replies == [Say(DialogCancelled)] && data == map[])
    {
      CancelRoutesEverywhere(state);
      var h := Route(state, ev);
      if h in {OnOrder, OnSelection} {
        replies, record := OrderStep(h, ev, cache, env);
      } else if h in {OnSkipAttachment, OnAmount, OnNote} {
        replies := FormStep(h, ev, env, cache.file);
        record := None;
      } else {
        replies := EntryStep(h, ev, env, cache.file);
        record := None;
      }
      HandledMovesAlongTheForm(h, ev, env, old(state), old(data), old(cache.file), cache.file, replies, record);
    }
  }
}
