/** The chatbot-sharing view of a chat flow: the form state initialised
    from the flow's saved chatbot configuration (falling back to the default
    look), the change handlers of its colour, text and switch fields, the
    serialisation of the form into the configuration that is saved, and the
    public URL of the chatbot. */
module ShareChatbotView {
  import opened Js

  // ---------------------------------------------------------------------------
  // The saved configuration and the form state
  // ---------------------------------------------------------------------------

  /** The style of the bot's or the user's messages in a saved configuration;
      an absent key, or an absent object, is `Undefined`. */
  datatype MessageStyle = MessageStyle(backgroundColor: Value, textColor: Value, avatarSrc: Value, showAvatar: Value)

  /** The style of the text input in a saved configuration. */
  datatype InputStyle = InputStyle(backgroundColor: Value, textColor: Value, placeholder: Value, sendButtonColor: Value)

  /** A chatbot configuration object, as parsed from the flow or as built to be saved. */
  datatype SavedConfig = SavedConfig(
    welcomeMessage: Value,
    backgroundColor: Value,
    fontSize: Value,
    poweredByTextColor: Value,
    botMessage: MessageStyle,
    userMessage: MessageStyle,
    textInput: InputStyle)

  const NoMessageStyle := MessageStyle(Undefined, Undefined, Undefined, Undefined)
  const NoInputStyle := InputStyle(Undefined, Undefined, Undefined, Undefined)

  /** `{}`: the configuration of a flow that has none. */
  const EmptyConfig := SavedConfig(Undefined, Undefined, Undefined, Undefined, NoMessageStyle, NoMessageStyle, NoInputStyle)

  /** The sixteen state variables of the form, each named after its
      variable; the handlers receive these names. */
  datatype FieldName =
    | WelcomeMessage | BackgroundColor | FontSize | PoweredByTextColor
    | BotMessageBackgroundColor | BotMessageTextColor | BotMessageAvatarSrc | BotMessageShowAvatar
    | UserMessageBackgroundColor | UserMessageTextColor | UserMessageAvatarSrc | UserMessageShowAvatar
    | TextInputBackgroundColor | TextInputTextColor | TextInputPlaceholder | TextInputSendButtonColor

  const AllFields: set<FieldName> := {
    WelcomeMessage, BackgroundColor, FontSize, PoweredByTextColor,
    BotMessageBackgroundColor, BotMessageTextColor, BotMessageAvatarSrc, BotMessageShowAvatar,
    UserMessageBackgroundColor, UserMessageTextColor, UserMessageAvatarSrc, UserMessageShowAvatar,
    TextInputBackgroundColor, TextInputTextColor, TextInputPlaceholder, TextInputSendButtonColor}

  /** Which handler sets a field: the colour picker, a text input or a switch. */
  datatype FieldKind = ColorField | TextField | BooleanField

  function KindOf(f: FieldName): FieldKind
  {
    match f
    case WelcomeMessage | FontSize | BotMessageAvatarSrc | UserMessageAvatarSrc | TextInputPlaceholder => TextField
    case BotMessageShowAvatar | UserMessageShowAvatar => BooleanField
    case _ => ColorField
  }

  /** The form: the value of each state variable. */
  type Config = map<FieldName, Value>

  predicate IsForm(c: Config)
  {
    c.Keys == AllFields
  }

  // ---------------------------------------------------------------------------
  // Initial state
  // ---------------------------------------------------------------------------

  /** The configuration the view starts from: the parsed text of the flow's
      `chatbotConfig` when it is truthy, `{}` otherwise. `parse` stands for
      `JSON.parse` of the text; its error escapes the component. */
  function SavedConfigOf(chatbotConfig: Option<string>, parse: string -> Result<SavedConfig, Exception>)
    : (r: Result<SavedConfig, Exception>)
    ensures chatbotConfig.None? || chatbotConfig == Some("") ==> r == Ok(EmptyConfig)
    ensures chatbotConfig.Some? && chatbotConfig.value != "" ==> r == parse(chatbotConfig.value)
  {
    if chatbotConfig.Some? && chatbotConfig.value != "" then parse(chatbotConfig.value) else Ok(EmptyConfig)
  }

  /** The default of each field: the default look for colours and the font
      size, '' for the free texts, `false` for the switches. */
  function Default(f: FieldName): (v: Value)
    ensures !Nullish(v)
    ensures KindOf(f) == ColorField || f == FontSize ==> Truthy(v)
    ensures KindOf(f) == TextField && f != FontSize ==> v == Str("")
    ensures KindOf(f) == BooleanField ==> v == Bool(false)
  {
    match f
    case WelcomeMessage => Str("")
    case BackgroundColor => Str("#ffffff")
    case FontSize => Num(16)
    case PoweredByTextColor => Str("#303235")
    case BotMessageBackgroundColor => Str("#f7f8ff")
    case BotMessageTextColor => Str("#303235")
    case BotMessageAvatarSrc => Str("")
    case BotMessageShowAvatar => Bool(false)
    case UserMessageBackgroundColor => Str("#3B81F6")
    case UserMessageTextColor => Str("#ffffff")
    case UserMessageAvatarSrc => Str("")
    case UserMessageShowAvatar => Bool(false)
    case TextInputBackgroundColor => Str("#ffffff")
    case TextInputTextColor => Str("#303235")
    case TextInputPlaceholder => Str("")
    case TextInputSendButtonColor => Str("#3B81F6")
  }

  /** The saved value a state variable is initialised from. */
  function SavedField(saved: SavedConfig, f: FieldName): Value
  {
    match f
    case WelcomeMessage => saved.welcomeMessage
    case BackgroundColor => saved.backgroundColor
    case FontSize => saved.fontSize
    case PoweredByTextColor => saved.poweredByTextColor
    case BotMessageBackgroundColor => saved.botMessage.backgroundColor
    case BotMessageTextColor => saved.botMessage.textColor
    case BotMessageAvatarSrc => saved.botMessage.avatarSrc
    case BotMessageShowAvatar => saved.botMessage.showAvatar
    case UserMessageBackgroundColor => saved.userMessage.backgroundColor
    case UserMessageTextColor => saved.userMessage.textColor
    case UserMessageAvatarSrc => saved.userMessage.avatarSrc
    case UserMessageShowAvatar => saved.userMessage.showAvatar
    case TextInputBackgroundColor => saved.textInput.backgroundColor
    case TextInputTextColor => saved.textInput.textColor
    case TextInputPlaceholder => saved.textInput.placeholder
    case TextInputSendButtonColor => saved.textInput.sendButtonColor
  }

  /** The form state of a saved configuration: `saved ?? default`, field by field. */
  function InitialConfig(saved: SavedConfig): (c: Config)
    ensures IsForm(c)
  {
    map f | f in AllFields :: Coalesce(SavedField(saved, f), Default(f))
  }

  /** Each field of the initial state is its saved value unless that is
      `undefined` or `null`, and its default otherwise. */
  lemma InitialFieldFallsBack(saved: SavedConfig, f: FieldName)
    ensures f in InitialConfig(saved)
    ensures !Nullish(SavedField(saved, f)) ==> InitialConfig(saved)[f] == SavedField(saved, f)
    ensures Nullish(SavedField(saved, f)) ==> InitialConfig(saved)[f] == Default(f)
  {
  }

  /** A flow without a configuration starts from the default look. */
  lemma NoConfigGivesDefaults(parse: string -> Result<SavedConfig, Exception>, f: FieldName)
    ensures SavedConfigOf(None, parse) == Ok(EmptyConfig)
    ensures InitialConfig(EmptyConfig)[f] == Default(f)
  {
  }

  // ---------------------------------------------------------------------------
  // formatObj
  // ---------------------------------------------------------------------------

  /** `if (v) obj.f = v`: a falsy value leaves the key out. */
  function Kept(v: Value): (r: Value)
    ensures Truthy(v) ==> r == v
    ensures !Truthy(v) ==> r == Undefined
  {
    if Truthy(v) then v else Undefined
  }

  /** A message style as saved: the `showAvatar` key is always there. */
  function FormattedMessage(backgroundColor: Value, textColor: Value, avatarSrc: Value, showAvatar: Value)
    : (m: MessageStyle)
    ensures !Nullish(m.showAvatar)
    ensures Truthy(m.showAvatar) <==> Truthy(showAvatar)
  {
    MessageStyle(Kept(backgroundColor), Kept(textColor), Kept(avatarSrc),
                 if Truthy(showAvatar) then showAvatar else Bool(false))
  }

  /** The configuration that is saved: every truthy field under its key, and
      `false` for an avatar switch that is off. */
  function Formatted(c: Config): (saved: SavedConfig)
    requires IsForm(c)
    ensures !Nullish(saved.botMessage.showAvatar) && !Nullish(saved.userMessage.showAvatar)
  {
    SavedConfig(
      Kept(c[WelcomeMessage]), Kept(c[BackgroundColor]), Kept(c[FontSize]), Kept(c[PoweredByTextColor]),
      FormattedMessage(c[BotMessageBackgroundColor], c[BotMessageTextColor],
                       c[BotMessageAvatarSrc], c[BotMessageShowAvatar]),
      FormattedMessage(c[UserMessageBackgroundColor], c[UserMessageTextColor],
                       c[UserMessageAvatarSrc], c[UserMessageShowAvatar]),
      InputStyle(Kept(c[TextInputBackgroundColor]), Kept(c[TextInputTextColor]),
                 Kept(c[TextInputPlaceholder]), Kept(c[TextInputSendButtonColor])))
  }

  /** One `if (v) obj.f = v` of `formatObj`: the key gets the value only
      when it is truthy. */
  method KeepIfTruthy(v: Value) returns (r: Value)
    ensures r == Kept(v)
  {
    r := Undefined;
    if Truthy(v) { r := v; }
  }

  /** The part of `formatObj` that fills one message style. */
  method FormatMessageStyle(backgroundColor: Value, textColor: Value, avatarSrc: Value, showAvatar: Value)
    returns (m: MessageStyle)
    ensures m == FormattedMessage(backgroundColor, textColor, avatarSrc, showAvatar)
  {
    var bg := KeepIfTruthy(backgroundColor);
    var text := KeepIfTruthy(textColor);
    var avatar := KeepIfTruthy(avatarSrc);
    var show := Bool(false);
    if Truthy(showAvatar) { show := showAvatar; }
    m := MessageStyle(bg, text, avatar, show);
  }

  /** The part of `formatObj` that fills the text input style. */
  method FormatInputStyle(backgroundColor: Value, textColor: Value, placeholder: Value, sendButtonColor: Value)
    returns (t: InputStyle)
    ensures t == InputStyle(Kept(backgroundColor), Kept(textColor), Kept(placeholder), Kept(sendButtonColor))
  {
    var bg := KeepIfTruthy(backgroundColor);
    var text := KeepIfTruthy(textColor);
    var placeholderText := KeepIfTruthy(placeholder);
    var button := KeepIfTruthy(sendButtonColor);
    t := InputStyle(bg, text, placeholderText, button);
  }

  /** What reloading restores: a falsy free-text field only when it is the
      empty string, a falsy switch only when it is `false`, a falsy colour or
      font size never (the default takes its place). */
  predicate Restorable(f: FieldName, v: Value)
    ensures Truthy(v) ==> Restorable(f, v)
    ensures Nullish(v) ==> !Restorable(f, v)
  {
    if KindOf(f) == ColorField || f == FontSize then Truthy(v)
    else if KindOf(f) == BooleanField then Truthy(v) || v == Bool(false)
    else Truthy(v) || v == Str("")
  }

  /** The saved value of each field, as reloading finds it. */
  lemma FormattedField(c: Config, f: FieldName)
    requires IsForm(c)
    ensures f in c
    ensures SavedField(Formatted(c), f)
            == if Truthy(c[f]) then c[f] else if KindOf(f) == BooleanField then Bool(false) else Undefined
  {
  }

  /** Saving the form and opening the view again gives back the same form
      exactly when every field is restorable. */
  lemma SaveThenReload(c: Config)
    requires IsForm(c)
    ensures InitialConfig(Formatted(c)) == c <==> forall f :: f in c ==> Restorable(f, c[f])
  {
    if forall f :: f in c ==> Restorable(f, c[f]) {
      AllRestorableReloaded(c);
    } else {
      var f :| f in c && !Restorable(f, c[f]);
      ReloadedField(c, f);
    }
  }

  /** A form whose every field is restorable comes back unchanged. */
  lemma AllRestorableReloaded(c: Config)
    requires IsForm(c) && forall f :: f in c ==> Restorable(f, c[f])
    ensures InitialConfig(Formatted(c)) == c
  {
    var r := InitialConfig(Formatted(c));
    forall f | f in c
      ensures f in r && r[f] == c[f]
    {
      ReloadedField(c, f);
    }
    SameFieldsSameForm(r, c);
  }

  /** Two forms that agree on every field are the same form. */
  lemma SameFieldsSameForm(a: Config, b: Config)
    requires IsForm(a) && IsForm(b)
    requires forall f :: f in b ==> f in a && a[f] == b[f]
    ensures a == b
  {
    assert a.Keys == b.Keys;
  }

  /** One field of the form comes back from a save exactly when it is restorable. */
  lemma ReloadedField(c: Config, f: FieldName)
    requires IsForm(c)
    ensures f in c && f in InitialConfig(Formatted(c))
    ensures InitialConfig(Formatted(c))[f] == c[f] <==> Restorable(f, c[f])
  {
    FormattedField(c, f);
    InitialFieldFallsBack(Formatted(c), f);
  }

  /** A font size of 0, or an emptied colour, is not saved and comes back as
      the default. */
  lemma FalsyFieldsReset(c: Config)
    requires IsForm(c) && c[FontSize] == Num(0) && c[BackgroundColor] == Str("")
    ensures InitialConfig(Formatted(c))[FontSize] == Num(16)
    ensures InitialConfig(Formatted(c))[BackgroundColor] == Str("#ffffff")
  {
  }

  // ---------------------------------------------------------------------------
  // The field handlers
  // ---------------------------------------------------------------------------

  /** The form after a handler for the fields of `kind` is given `field`:
      the field takes the value if it is of that kind, and nothing else
      changes; `None` (no field selected) changes nothing. */
  function Updated(c: Config, kind: FieldKind, field: Option<FieldName>, v: Value): (r: Config)
    ensures r.Keys == c.Keys
    ensures field.Some? && field.value in c && KindOf(field.value) == kind ==> r[field.value] == v
    ensures forall f :: f in c && field != Some(f) ==> r[f] == c[f]
    ensures field.None? || KindOf(field.value) != kind ==> r == c
  {
    if field.Some? && KindOf(field.value) == kind && field.value in c then c[field.value := v] else c
  }

  /** The view's state: the form, the field the colour picker is open
      for, and the colour the picker shows. */
  class ShareChatbotForm {
    var config: Config
    var selectedColorConfig: Option<FieldName>
    var sketchPickerColor: Value

    /** The form holds a value for every one of its sixteen fields. */
    predicate Valid()
      reads this
    {
      IsForm(config)
    }

    constructor(saved: SavedConfig)
      ensures Valid()
      ensures config == InitialConfig(saved)
      ensures selectedColorConfig == None && sketchPickerColor == Str("")
    {
      config := InitialConfig(saved);
      selectedColorConfig := None;
      sketchPickerColor := Str("");
    }

    /** `formatObj`: the two message styles start with `showAvatar: false`
        and the text input style empty; each truthy field is then added. */
    method FormatObj() returns (obj: SavedConfig)
      requires Valid()
      ensures obj == Formatted(config)
    {
      var c := config;
      var welcomeMessage := KeepIfTruthy(c[WelcomeMessage]);
      var backgroundColor := KeepIfTruthy(c[BackgroundColor]);
      var fontSize := KeepIfTruthy(c[FontSize]);
      var poweredByTextColor := KeepIfTruthy(c[PoweredByTextColor]);
      var botMessage := FormatMessageStyle(c[BotMessageBackgroundColor], c[BotMessageTextColor],
                                           c[BotMessageAvatarSrc], c[BotMessageShowAvatar]);
      var userMessage := FormatMessageStyle(c[UserMessageBackgroundColor], c[UserMessageTextColor],
                                            c[UserMessageAvatarSrc], c[UserMessageShowAvatar]);
      var textInput := FormatInputStyle(c[TextInputBackgroundColor], c[TextInputTextColor],
                                        c[TextInputPlaceholder], c[TextInputSendButtonColor]);
      obj := SavedConfig(welcomeMessage, backgroundColor, fontSize, poweredByTextColor,
                         botMessage, userMessage, textInput);
    }

    /** A click on a colour swatch: the picker opens for that field and shows
        its colour, or white when it has none. */
    method OpenColorPicker(field: FieldName)
      requires Valid() && KindOf(field) == ColorField
      modifies this
      ensures Valid()
      ensures config == old(config)
      ensures selectedColorConfig == Some(field)
      ensures sketchPickerColor == Coalesce(config[field], Str("#ffffff"))
    {
      selectedColorConfig := Some(field);
      sketchPickerColor := Coalesce(config[field], Str("#ffffff"));
    }

    /** `onColorSelected`: the field the picker is open for takes the colour,
        if it is a colour field; the picker shows the colour in any case. */
    method OnColorSelected(hexColor: string)
      requires Valid()
      modifies this
      ensures Valid()
      ensures config == Updated(old(config), ColorField, selectedColorConfig, Str(hexColor))
      ensures sketchPickerColor == Str(hexColor)
      ensures selectedColorConfig == old(selectedColorConfig)
    {
      config := Updated(config, ColorField, selectedColorConfig, Str(hexColor));
      sketchPickerColor := Str(hexColor);
    }

    /** `onTextChanged`: one of the five text fields takes the input's text
        (the font size too, as text). */
    method OnTextChanged(value: string, fieldName: FieldName)
      requires Valid()
      modifies this
      ensures Valid()
      ensures config == Updated(old(config), TextField, Some(fieldName), Str(value))
      ensures selectedColorConfig == old(selectedColorConfig) && sketchPickerColor == old(sketchPickerColor)
    {
      config := Updated(config, TextField, Some(fieldName), Str(value));
    }

    /** `onBooleanChanged`: one of the two switches takes the new state. */
    method OnBooleanChanged(value: bool, fieldName: FieldName)
      requires Valid()
      modifies this
      ensures Valid()
      ensures config == Updated(old(config), BooleanField, Some(fieldName), Bool(value))
      ensures selectedColorConfig == old(selectedColorConfig) && sketchPickerColor == old(sketchPickerColor)
    {
      config := Updated(config, BooleanField, Some(fieldName), Bool(value));
    }
  }

  /** A picker opened on a colour field, then given a colour, changes that
      field alone. */
  lemma PickerSetsItsField(c: Config, f: FieldName, hex: string, g: FieldName)
    requires IsForm(c) && KindOf(f) == ColorField && g != f
    ensures Updated(c, ColorField, Some(f), Str(hex))[f] == Str(hex)
    ensures Updated(c, ColorField, Some(f), Str(hex))[g] == c[g]
  {
  }

  /** Typing in the font-size field stores the text, which is saved as text;
      an emptied font size is left out of the saved object. */
  lemma FontSizeStoredAsText(c: Config, value: string)
    requires IsForm(c)
    ensures Updated(c, TextField, Some(FontSize), Str(value))[FontSize] == Str(value)
    ensures Formatted(Updated(c, TextField, Some(FontSize), Str(value))).fontSize
            == if value == "" then Undefined else Str(value)
  {
  }

  // ---------------------------------------------------------------------------
  // The share URL
  // ---------------------------------------------------------------------------

  /** The URL shown and copied: the server's base URL, `/chatbot/`, the flow id. */
  function ShareUrl(baseURL: string, chatflowid: string): (url: string)
    ensures |url| == |baseURL| + 9 + |chatflowid|
    ensures url[..|baseURL|] == baseURL
    ensures url[|baseURL|..|baseURL| + 9] == "/chatbot/"
    ensures url[|baseURL| + 9..] == chatflowid
  {
    baseURL + "/chatbot/" + chatflowid
  }

  /** Different flows on the same server have different URLs. */
  lemma ShareUrlInjective(baseURL: string, a: string, b: string)
    requires ShareUrl(baseURL, a) == ShareUrl(baseURL, b)
    ensures a == b
  {
    assert a == ShareUrl(baseURL, a)[|baseURL| + 9..];
  }
}
