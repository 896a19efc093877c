/**
 * The request checks of the RPG blueprint's handlers, everything they
 * decide before touching the database: registration's first-missing-field
 * rule, character creation's "all fields are required" rule, the quest and
 * key-binding handlers' ordered lists of missing fields, and the template
 * analysis used when no text-generation key is configured.
 */
module RpgApi {
  import opened Wrappers
  import opened Requests

  // ---------------------------------------------------------------------------
  // Registration
  // ---------------------------------------------------------------------------

  /** The fields `RPGDataAPI.post` requires, in the order they are checked. */
  const RpgRegistrationFields := ["FirstName", "LastName", "GitHubID", "Password"]

  /**
   * `RPGDataAPI.post` before the duplicate lookup: 400 for an empty body,
   * 400 naming the first of FirstName, LastName, GitHubID, Password that is
   * missing or empty, and otherwise on to the lookup.
   */
  lemma RpgRegistrationCheck(body: Body)
    ensures var r := CheckRequired(body, RpgRegistrationFields);
      && (r.NoData? <==> body.None? || body.value == map[])
      && (r.Required? ==> r.field in RpgRegistrationFields && Missing(body.value, r.field))
      && (r.Required? && r.field == "LastName" ==> !Missing(body.value, "FirstName"))
      && (r.Required? && r.field == "GitHubID" ==> !Missing(body.value, "FirstName") && !Missing(body.value, "LastName"))
      && (r.Required? && r.field == "Password" ==>
            !Missing(body.value, "FirstName") && !Missing(body.value, "LastName") && !Missing(body.value, "GitHubID"))
      && (r.Complete? <==>
            (body.Some? && body.value != map[]
             && !Missing(body.value, "FirstName") && !Missing(body.value, "LastName")
             && !Missing(body.value, "GitHubID") && !Missing(body.value, "Password")))
  {
    var r := CheckRequired(body, RpgRegistrationFields);
    var fs := RpgRegistrationFields;
    if r.Required? {
      var i :| 0 <= i < |fs| && fs[i] == r.field && Missing(body.value, fs[i])
        && forall j :: 0 <= j < i ==> !Missing(body.value, fs[j]);
      assert fs[0] == "FirstName" && fs[1] == "LastName" && fs[2] == "GitHubID" && fs[3] == "Password";
    }
    if r.Complete? {
      assert forall i :: 0 <= i < |fs| ==> !Missing(body.value, fs[i]);
      assert fs[0] == "FirstName" && fs[1] == "LastName" && fs[2] == "GitHubID" && fs[3] == "Password";
    }
  }

  // ---------------------------------------------------------------------------
  // Shared by the character, quest and key-binding handlers
  // ---------------------------------------------------------------------------

  /** `data.get(name, '').strip()` */
  function Field(obj: Object, name: string): string
  {
    Strip(GetOr(obj, name, ""))
  }

  // ---------------------------------------------------------------------------
  // Character creation
  // ---------------------------------------------------------------------------

  datatype CharacterInput = CharacterInput(name: string, motivation: string, fear: string, secret: string, gameMode: string)

  datatype CharacterCheck =
    | CharacterError                          // 500: no JSON body, `data.get` raises
    | AllFieldsRequired                       // 400
    | CharacterAccepted(input: CharacterInput)

  /**
   * `CharacterAPI.post` up to the analysis: name, motivation, fear and secret
   * are stripped and all must be non-empty; `gameMode` defaults to `'action'`
   * and is not stripped.
   */
  function CheckCharacter(body: Body): (r: CharacterCheck)
    ensures r.CharacterError? <==> body.None?
    ensures body.Some? ==>
      var obj := body.value;
      r.AllFieldsRequired? <==>
        (Field(obj, "name") == "" || Field(obj, "motivation") == "" || Field(obj, "fear") == "" || Field(obj, "secret") == "")
    ensures r.CharacterAccepted? ==>
      var obj := body.value;
      r.input == CharacterInput(Field(obj, "name"), Field(obj, "motivation"), Field(obj, "fear"),
                                Field(obj, "secret"), GetOr(obj, "gameMode", "action"))
      && r.input.name != "" && r.input.motivation != "" && r.input.fear != "" && r.input.secret != ""
  {
    if body.None? then CharacterError
    else
      var obj := body.value;
      var name := Field(obj, "name");
      var motivation := Field(obj, "motivation");
      var fear := Field(obj, "fear");
      var secret := Field(obj, "secret");
      if name == "" || motivation == "" || fear == "" || secret == "" then AllFieldsRequired
      else CharacterAccepted(CharacterInput(name, motivation, fear, secret, GetOr(obj, "gameMode", "action")))
  }

  /** The text after the name in the cozy-mode template. */
  const CozyAnalysis := " has a gentle but determined spirit, with motivations that connect them to their community. Their fear represents vulnerability that makes them relatable and human, while their secret adds intrigue without overwhelming darkness. This character's journey will be one of personal growth and connection, where their motivation guides them to help others, their fear teaches them compassion, and their secret becomes something they learn to share and find acceptance for."

  /** The text after the name in the template for every other mode. */
  const ActionAnalysis := " is driven by a powerful motivation that will push them through the most dangerous quests. Their greatest fear creates internal conflict that adds depth to their journey, while their hidden secret provides opportunities for dramatic revelation. This character's motivation and fear are in tension, creating a compelling arc where they must face what they fear most to achieve what they desire."

  /**
   * `_generate_basic_analysis`: both templates begin with the character's
   * name; the cozy one is chosen exactly when the mode is `'cozy'`. The
   * other answers are not used by either template.
   */
  function BasicAnalysis(name: string, motivation: string, fear: string, secret: string, gameMode: string): (r: string)
    ensures |r| > |name| && r[..|name|] == name
    ensures r[|name|..] == CozyAnalysis <==> gameMode == "cozy"
    ensures r[|name|..] == ActionAnalysis <==> gameMode != "cozy"
  {
    assert |CozyAnalysis| != |ActionAnalysis|;
    var r := if gameMode == "cozy" then name + CozyAnalysis else name + ActionAnalysis;
    assert r[|name|..] == if gameMode == "cozy" then CozyAnalysis else ActionAnalysis;
    r
  }

  // ---------------------------------------------------------------------------
  // Quests
  // ---------------------------------------------------------------------------

  /** The fields a quest requires, in the order the missing list names them. */
  const QuestFields := ["title", "location", "objective", "difficulty", "reward", "userGithubId"]

  /** The stripped values of the quest fields, in the same order. */
  function QuestValues(obj: Object): seq<string>
  {
    [Field(obj, "title"), Field(obj, "location"), Field(obj, "objective"),
     Field(obj, "difficulty"), Field(obj, "reward"), Field(obj, "userGithubId")]
  }

  datatype Quest = Quest(title: string, location: string, objective: string, difficulty: string,
                         reward: string, gameMode: string, userGithubId: string)

  datatype QuestResponse =
    | QuestError                              // 500: no JSON body, `data.get` raises
    | QuestMissing(missing: seq<string>)      // 400 "Missing required fields: ..."
    | QuestAccepted(quest: Quest)             // on to the INSERT

  /** The quest handler's `missing` list: one append per blank field, in field order. */
  method QuestMissingList(title: string, location: string, objective: string, difficulty: string,
                          reward: string, userGithubId: string) returns (missing: seq<string>)
    ensures missing == Blanks(QuestFields, [title, location, objective, difficulty, reward, userGithubId])
  {
    missing := [];
    if title == "" { missing := missing + ["title"]; }
    assert missing == Blank("title", title);
    if location == "" { missing := missing + ["location"]; }
    assert missing == Blank("title", title) + Blank("location", location);
    if objective == "" { missing := missing + ["objective"]; }
    assert missing == Blank("title", title) + Blank("location", location) + Blank("objective", objective);
    if difficulty == "" { missing := missing + ["difficulty"]; }
    assert missing == Blank("title", title) + Blank("location", location) + Blank("objective", objective) + Blank("difficulty", difficulty);
    if reward == "" { missing := missing + ["reward"]; }
    assert missing == Blank("title", title) + Blank("location", location) + Blank("objective", objective) + Blank("difficulty", difficulty) + Blank("reward", reward);
    if userGithubId == "" { missing := missing + ["userGithubId"]; }
    assert missing == Blank("title", title) + Blank("location", location) + Blank("objective", objective)
      + Blank("difficulty", difficulty) + Blank("reward", reward) + Blank("userGithubId", userGithubId);
    BlanksSix(QuestFields, [title, location, objective, difficulty, reward, userGithubId]);
  }

  /**
   * The quest handler's decision once the fields are read and stripped: 400
   * naming every blank field in the fixed order title, location, objective,
   * difficulty, reward, userGithubId; otherwise the quest to insert.
   */
  method QuestDecision(title: string, location: string, objective: string, difficulty: string,
                       reward: string, gameMode: string, userGithubId: string) returns (r: QuestResponse)
    ensures !r.QuestError?
    ensures var v := [title, location, objective, difficulty, reward, userGithubId];
      && (r.QuestMissing? <==> exists i :: 0 <= i < |v| && v[i] == "")
      && (r.QuestMissing? ==> r.missing == Blanks(QuestFields, v))
      && (r.QuestAccepted? ==> r.quest == Quest(title, location, objective, difficulty, reward, gameMode, userGithubId))
  {
    ghost var v := [title, location, objective, difficulty, reward, userGithubId];
    if !(title != "" && location != "" && objective != "" && difficulty != "" && reward != "" && userGithubId != "") {
      var missing := QuestMissingList(title, location, objective, difficulty, reward, userGithubId);
      if title == "" { assert v[0] == ""; }
      else if location == "" { assert v[1] == ""; }
      else if objective == "" { assert v[2] == ""; }
      else if difficulty == "" { assert v[3] == ""; }
      else if reward == "" { assert v[4] == ""; }
      else { assert v[5] == ""; }
      return QuestMissing(missing);
    }
    return QuestAccepted(Quest(title, location, objective, difficulty, reward, gameMode, userGithubId));
  }

  /**
   * `QuestAPI.post` up to the INSERT: every field but `gameMode` is read with
   * an empty default and stripped; `gameMode` defaults to `'action'` and is
   * not stripped.
   */
  method QuestPost(body: Body) returns (r: QuestResponse)
    ensures r.QuestError? <==> body.None?
    ensures body.Some? ==>
      var v := QuestValues(body.value);
      && (r.QuestMissing? <==> Blanks(QuestFields, v) != [])
      && (r.QuestMissing? ==> r.missing == Blanks(QuestFields, v))
      && (r.QuestAccepted? ==>
            r.quest == Quest(v[0], v[1], v[2], v[3], v[4], GetOr(body.value, "gameMode", "action"), v[5]))
  {
    if body.None? {
      return QuestError;
    }
    var obj := body.value;
    ghost var v := QuestValues(obj);
    BlanksEmpty(QuestFields, v);
    r := QuestDecision(Field(obj, "title"), Field(obj, "location"), Field(obj, "objective"),
                       Field(obj, "difficulty"), Field(obj, "reward"), GetOr(obj, "gameMode", "action"),
                       Field(obj, "userGithubId"));
  }

  // ---------------------------------------------------------------------------
  // Key bindings
  // ---------------------------------------------------------------------------

  /** The key-binding fields required in every mode, in the order the missing list names them. */
  const KeyBindingFields := ["userGithubId", "moveUpKey", "moveLeftKey", "moveDownKey", "moveRightKey", "interactKey"]

  /** The default mode has no surrounding whitespace. */
  lemma StripAction()
    ensures Strip("action") == "action"
  {
    assert !IsSpace("action"[0]);
    assert LStrip("action") == "action";
    assert !IsSpace("action"[5]);
    assert RStrip("action") == "action";
  }

  /**
   * The mode the key-binding handler works in: the stripped `gameMode` when
   * it is present and not blank, and `'action'` otherwise.
   */
  function EffectiveMode(obj: Object): (m: string)
    ensures m != ""
    ensures m == "action" || ("gameMode" in obj && m == Strip(obj["gameMode"]))
  {
    if "gameMode" in obj && Strip(obj["gameMode"]) != "" then Strip(obj["gameMode"]) else "action"
  }

  /** The fields required in `mode`: `jumpKey` joins the list unless the mode is `'cozy'`. */
  function RequiredKeyFields(mode: string): (r: seq<string>)
    ensures "jumpKey" in r <==> mode != "cozy"
    ensures |r| >= |KeyBindingFields| && r[..|KeyBindingFields|] == KeyBindingFields
  {
    KeyBindingFields + (if mode != "cozy" then ["jumpKey"] else [])
  }

  /** `data.get('gameMode', 'action').strip() or 'action'` is the effective mode. */
  lemma ComputedModeIsEffective(obj: Object)
    ensures var m := Strip(GetOr(obj, "gameMode", "action"));
      (if m == "" then "action" else m) == EffectiveMode(obj)
  {
    StripAction();
  }

  /** The stripped values of the required key-binding fields, in the same order. */
  function KeyBindingValues(obj: Object, mode: string): seq<string>
  {
    [Field(obj, "userGithubId"), Field(obj, "moveUpKey"), Field(obj, "moveLeftKey"),
     Field(obj, "moveDownKey"), Field(obj, "moveRightKey"), Field(obj, "interactKey")]
    + (if mode != "cozy" then [Field(obj, "jumpKey")] else [])
  }

  /** The values the handler reads, split as its checks use them: six every mode needs, then `jumpKey`. */
  lemma KeyBindingValuesSplit(obj: Object, mode: string)
    ensures KeyBindingValues(obj, mode) ==
      [Field(obj, "userGithubId"), Field(obj, "moveUpKey"), Field(obj, "moveLeftKey"),
       Field(obj, "moveDownKey"), Field(obj, "moveRightKey"), Field(obj, "interactKey")]
      + (if mode != "cozy" then [Field(obj, "jumpKey")] else [])
  {
  }

  datatype KeyBindingResponse =
    | KeyBindingError                          // 500: no JSON body, `data.get` raises
    | KeyBindingMissing(missing: seq<string>)  // 400 "Missing required fields: ..."
    | KeyBindingAccepted(userGithubId: string, gameMode: string)  // on to the INSERT

  /** The key-binding handler's appends for the six fields every mode requires. */
  method KeyBindingBaseMissing(userGithubId: string, moveUpKey: string, moveLeftKey: string,
                               moveDownKey: string, moveRightKey: string, interactKey: string)
    returns (missing: seq<string>)
    ensures missing == Blanks(KeyBindingFields,
      [userGithubId, moveUpKey, moveLeftKey, moveDownKey, moveRightKey, interactKey])
  {
    missing := [];
    if userGithubId == "" { missing := missing + ["userGithubId"]; }
    assert missing == Blank("userGithubId", userGithubId);
    if moveUpKey == "" { missing := missing + ["moveUpKey"]; }
    assert missing == Blank("userGithubId", userGithubId) + Blank("moveUpKey", moveUpKey);
    if moveLeftKey == "" { missing := missing + ["moveLeftKey"]; }
    assert missing == Blank("userGithubId", userGithubId) + Blank("moveUpKey", moveUpKey) + Blank("moveLeftKey", moveLeftKey);
    if moveDownKey == "" { missing := missing + ["moveDownKey"]; }
    assert missing == Blank("userGithubId", userGithubId) + Blank("moveUpKey", moveUpKey) + Blank("moveLeftKey", moveLeftKey) + Blank("moveDownKey", moveDownKey);
    if moveRightKey == "" { missing := missing + ["moveRightKey"]; }
    assert missing == Blank("userGithubId", userGithubId) + Blank("moveUpKey", moveUpKey) + Blank("moveLeftKey", moveLeftKey) + Blank("moveDownKey", moveDownKey) + Blank("moveRightKey", moveRightKey);
    if interactKey == "" { missing := missing + ["interactKey"]; }
    assert missing == Blank("userGithubId", userGithubId) + Blank("moveUpKey", moveUpKey) + Blank("moveLeftKey", moveLeftKey)
      + Blank("moveDownKey", moveDownKey) + Blank("moveRightKey", moveRightKey) + Blank("interactKey", interactKey);
    BlanksSix(KeyBindingFields, [userGithubId, moveUpKey, moveLeftKey, moveDownKey, moveRightKey, interactKey]);
  }

  /**
   * The key-binding handler's decision once the fields are read and
   * stripped: `jumpKey` is checked only outside cozy mode; 400 naming every
   * blank required field in order, otherwise the binding to insert.
   */
  method KeyBindingDecision(gameMode: string, userGithubId: string, moveUpKey: string, moveLeftKey: string,
                            moveDownKey: string, moveRightKey: string, interactKey: string, jumpKey: string)
    returns (r: KeyBindingResponse)
    ensures !r.KeyBindingError?
    ensures var missing := Blanks(RequiredKeyFields(gameMode),
        [userGithubId, moveUpKey, moveLeftKey, moveDownKey, moveRightKey, interactKey]
        + (if gameMode != "cozy" then [jumpKey] else []));
      && (r.KeyBindingMissing? <==> missing != [])
      && (r.KeyBindingMissing? ==> r.missing == missing)
      && (r.KeyBindingAccepted? ==> r.userGithubId == userGithubId && r.gameMode == gameMode)
  {
    ghost var n := KeyBindingFields;
    ghost var v := [userGithubId, moveUpKey, moveLeftKey, moveDownKey, moveRightKey, interactKey];
    var missing := KeyBindingBaseMissing(userGithubId, moveUpKey, moveLeftKey, moveDownKey, moveRightKey, interactKey);
    if gameMode != "cozy" && jumpKey == "" {
      missing := missing + ["jumpKey"];
    }
    if gameMode != "cozy" {
      assert Blanks(["jumpKey"], [jumpKey]) == if jumpKey == "" then ["jumpKey"] else [];
      BlanksConcat(n, v, ["jumpKey"], [jumpKey]);
      assert RequiredKeyFields(gameMode) == n + ["jumpKey"];
      assert v + (if gameMode != "cozy" then [jumpKey] else []) == v + [jumpKey];
    } else {
      assert RequiredKeyFields(gameMode) == n;
      assert v + (if gameMode != "cozy" then [jumpKey] else []) == v;
    }
    if missing != [] {
      return KeyBindingMissing(missing);
    }
    return KeyBindingAccepted(userGithubId, gameMode);
  }

  /**
   * `KeyBindingAPI.post` up to the INSERT: every field is read with an
   * empty default and stripped, and the mode is the effective mode.
   */
  method KeyBindingPost(body: Body) returns (r: KeyBindingResponse)
    ensures r.KeyBindingError? <==> body.None?
    ensures body.Some? ==>
      var obj := body.value;
      var mode := EffectiveMode(obj);
      var missing := Blanks(RequiredKeyFields(mode), KeyBindingValues(obj, mode));
      && (r.KeyBindingMissing? <==> missing != [])
      && (r.KeyBindingMissing? ==> r.missing == missing)
      && (r.KeyBindingAccepted? ==> r.userGithubId == Field(obj, "userGithubId") && r.gameMode == mode)
  {
    if body.None? {
      return KeyBindingError;
    }
    var obj := body.value;
    var gameMode := Strip(GetOr(obj, "gameMode", "action"));
    if gameMode == "" {
      gameMode := "action";
    }
    ComputedModeIsEffective(obj);
    KeyBindingValuesSplit(obj, gameMode);
    r := KeyBindingDecision(gameMode, Field(obj, "userGithubId"), Field(obj, "moveUpKey"), Field(obj, "moveLeftKey"),
                            Field(obj, "moveDownKey"), Field(obj, "moveRightKey"), Field(obj, "interactKey"),
                            Field(obj, "jumpKey"));
  }
}
