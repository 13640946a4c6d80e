/**
 * The add / edit password form (`createForm`): the password-generation
 * settings with their two guards, the mode-dependent request targets, and the
 * form's own rendered state (input values, toggle buttons, decrease button).
 */
module EditAdd {
  import opened Wrappers
  import opened Strings
  import opened Records
  import opened Http

  /** The character classes the toggle buttons switch on and off. */
  datatype GenOption = Lower | Upper | Digits | Symbols | Punct | Brackets

  /** The minimum (and initial) generated-password length. */
  const GenLengthMin: int := 10

  const InitialGenOptions: set<GenOption> := {Lower, Upper, Digits}

  //----------------------------------------------------------------------------
  // Request method and targets: edit mode addresses the credential `pwdId`

  function SubmitMethod(id: string): (m: Method)
    ensures m == PUT <==> id == "edit"
    ensures m == POST <==> id != "edit"
  {
    if id == "edit" then PUT else POST
  }

  function SubmitUrl(id: string, pwdId: int): (url: string)
    ensures id == "edit" ==> ItemId(url) == Some(pwdId)
    ensures id != "edit" ==> url == PasswordsPath && ItemId(url) == None
  {
    if id == "edit" then
      ItemUrlAddresses(pwdId);
      PasswordsPath + "/" + IntToString(pwdId)
    else PasswordsPath
  }

  function UpdateUrl(id: string, pwdId: int): (url: string)
    ensures id == "edit" ==> InfoId(url) == Some(pwdId)
    ensures id != "edit" ==> url == MyInfoPath && InfoId(url) == None
  {
    if id == "edit" then
      InfoUrlAddresses(pwdId);
      MyInfoPath + "?id=" + IntToString(pwdId)
    else MyInfoPath
  }

  //----------------------------------------------------------------------------
  // The two guarded updates of the generation settings, on values

  /** `Math.max(len + n, min)`: the new length after a change by `n`. */
  function ChangedLength(len: int, n: int, min: int): (r: int)
    ensures r >= min && r >= len + n
    ensures r == len + n || r == min
  {
    if len + n > min then len + n else min
  }

  /** For a member `o` of `s`: `s` has one element exactly when it is `{o}`. */
  lemma SingletonIff(s: set<GenOption>, o: GenOption)
    requires o in s
    ensures |s| == 1 <==> s == {o}
  {
    if |s| == 1 {
      assert |s - {o}| == 0;
      assert s - {o} == {};
    }
  }

  /** The option set after a click on option `o`'s toggle button. */
  function Toggled(opts: set<GenOption>, o: GenOption): (r: set<GenOption>)
    ensures opts != {} ==> r != {}
    ensures forall p :: p != o ==> (p in r <==> p in opts)
    ensures o in r <==> (o !in opts || opts == {o})
  {
    if o in opts then
      SingletonIff(opts, o);
      if |opts| == 1 then opts else opts - {o}
    else opts + {o}
  }

  /** On a non-empty set, toggling the same option twice restores the set. */
  lemma ToggleTwice(opts: set<GenOption>, o: GenOption)
    requires opts != {}
    ensures Toggled(Toggled(opts, o), o) == opts
  {
  }

  /** The length after a sequence of increase / decrease clicks. */
  function LengthAfter(len: int, ns: seq<int>, min: int): int
    decreases |ns|
  {
    if ns == [] then len else LengthAfter(ChangedLength(len, ns[0], min), ns[1..], min)
  }

  /** The option set after a sequence of toggle clicks. */
  function OptionsAfter(opts: set<GenOption>, os: seq<GenOption>): set<GenOption>
    decreases |os|
  {
    if os == [] then opts else OptionsAfter(Toggled(opts, os[0]), os[1..])
  }

  /** No sequence of length changes takes the length below the floor. */
  lemma {:induction false} LengthStaysAboveFloor(len: int, ns: seq<int>, min: int)
    requires len >= min
    ensures LengthAfter(len, ns, min) >= min
    decreases |ns|
  {
    if ns != [] {
      LengthStaysAboveFloor(ChangedLength(len, ns[0], min), ns[1..], min);
    }
  }

  /** No sequence of toggles empties a non-empty option set. */
  lemma {:induction false} OptionsStayNonEmpty(opts: set<GenOption>, os: seq<GenOption>)
    requires opts != {}
    ensures OptionsAfter(opts, os) != {}
    decreases |os|
  {
    if os != [] {
      OptionsStayNonEmpty(Toggled(opts, os[0]), os[1..]);
    }
  }

  //----------------------------------------------------------------------------
  // Pre-filling the form from the update response

  /** The text inputs of the form (the organization and category selects are not inputs). */
  datatype Fields = Fields(siteName: string, siteUrl: string, siteLogin: string, sitePwd: string)

  const EmptyFields: Fields := Fields("", "", "", "")

  /**
   * What `passwords ? passwords[0] : {}` yields: `{}` when the response has no
   * `passwords` (add mode), the first record, or `undefined` for an empty list.
   */
  datatype Prefill = Blank | Record(credential: Credential) | Undefined

  function ChoosePrefill(passwords: Option<seq<Credential>>): (p: Prefill)
    ensures passwords.None? <==> p == Blank
    ensures p.Record? <==> passwords.Some? && |passwords.value| > 0
    ensures p.Record? ==> p.credential == passwords.value[0]
  {
    match passwords
    case None => Blank
    case Some(ps) => if |ps| > 0 then Record(ps[0]) else Undefined
  }

  /** The input values shown for a pre-fill: the record's fields, or all empty. */
  function FieldsFor(p: Prefill): (f: Fields)
    ensures p.Record? ==>
      && f.siteName == p.credential.siteName && f.siteUrl == p.credential.siteUrl
      && f.siteLogin == p.credential.siteLogin && f.sitePwd == p.credential.sitePwd
    ensures !p.Record? ==> f == EmptyFields
  {
    match p
    case Record(c) => Fields(c.siteName, c.siteUrl, c.siteLogin, c.sitePwd)
    case _ => EmptyFields
  }

  //----------------------------------------------------------------------------
  // The form object

  class Form {
    /** "add" or "edit": the mode. */
    const id: string
    const genLengthMin: int
    var genOptions: set<GenOption>
    var genLength: int
    /** The credential being edited; -1 while none is. */
    var pwdId: int

    // What is rendered: nothing until the first update response arrives.
    var rendered: bool
    /** The options whose toggle button carries the class `on`. */
    var on: set<GenOption>
    /** Whether the decrease button is enabled. */
    var decreaseEnabled: bool
    var fields: Fields

    ghost predicate Valid()
      reads this
    {
      && genLengthMin == GenLengthMin
      && genOptions != {}
      && genLength >= genLengthMin
      && (rendered ==> on == genOptions && decreaseEnabled == (genLength != genLengthMin))
      && (!rendered ==> on == {} && !decreaseEnabled && fields == EmptyFields)
    }

    constructor (id: string)
      ensures Valid() && this.id == id
      ensures genOptions == InitialGenOptions && genLength == genLengthMin == 10 && pwdId == -1
      ensures !rendered && fields == EmptyFields
    {
      this.id := id;
      genLengthMin := GenLengthMin;
      genOptions := InitialGenOptions;
      genLength := GenLengthMin;
      pwdId := -1;
      rendered := false;
      on := {};
      decreaseEnabled := false;
      fields := EmptyFields;
    }

    /** Empties every input; the generation settings and `pwdId` are left alone. */
    method Clear()
      requires Valid()
      modifies this`fields
      ensures Valid() && fields == EmptyFields
    {
      fields := EmptyFields;
    }

    /** Enables the decrease button exactly when the length is above its floor. */
    method SetDecreaseState()
      modifies this`decreaseEnabled
      ensures decreaseEnabled == (rendered && genLength != genLengthMin)
    {
      if rendered {
        decreaseEnabled := genLength != genLengthMin;
      } else {
        decreaseEnabled := false;
      }
    }

    /** A click on increase (`n == 1`) or decrease (`n == -1`). */
    method ChangeGenLength(n: int)
      requires Valid()
      modifies this`genLength, this`decreaseEnabled
      ensures Valid()
      ensures genLength == ChangedLength(old(genLength), n, genLengthMin)
      ensures decreaseEnabled == (rendered && genLength != genLengthMin)
    {
      genLength := ChangedLength(genLength, n, genLengthMin);
      SetDecreaseState();
    }

    /**
     * A click on option `o`'s toggle button. The branch is on the button's
     * `on` class; the last enabled option is never switched off.
     */
    method SetGenOption(o: GenOption)
      requires Valid()
      modifies this`genOptions, this`on
      ensures Valid()
      ensures genOptions == if rendered then Toggled(old(genOptions), o) else old(genOptions) + {o}
    {
      if o in on {
        SingletonIff(genOptions, o);
        if |genOptions| == 1 {
          return;
        }
        genOptions := genOptions - {o};
        on := on - {o};
        return;
      }
      genOptions := genOptions + {o};
      if rendered {
        on := on + {o};
      }
    }

    /**
     * The body of the update response handler: rebuild the form, pre-filled
     * from `passwords ? passwords[0] : {}`, then put the decrease button and
     * the toggle buttons in line with the generation settings.
     */
    method Loaded(passwords: Option<seq<Credential>>)
      requires Valid()
      modifies this`rendered, this`on, this`decreaseEnabled, this`fields
      ensures Valid() && rendered
      ensures fields == FieldsFor(ChoosePrefill(passwords))
    {
      fields := FieldsFor(ChoosePrefill(passwords));
      on := {};
      rendered := true;
      SetDecreaseState();
      var rest := genOptions;
      while rest != {}
        invariant on + rest == genOptions && on !! rest
        invariant rendered && decreaseEnabled == (genLength != genLengthMin)
        invariant fields == FieldsFor(ChoosePrefill(passwords))
        decreases rest
      {
        var o :| o in rest;
        on := on + {o};
        rest := rest - {o};
      }
    }

    /** The generate button: writes `gen(genLength, genOptions)` into the password input. */
    method Generate(gen: (int, set<GenOption>) -> string)
      requires Valid()
      modifies this`fields
      ensures Valid()
      ensures rendered ==> fields == old(fields).(sitePwd := gen(genLength, genOptions))
      ensures !rendered ==> fields == old(fields)
    {
      if rendered {
        fields := fields.(sitePwd := gen(genLength, genOptions));
      }
    }
  }
}
