/** The configuration loader: three settings read from the process environment. */
module Env {
  import opened Results
  import opened Strings

  /** The `env` record: each setting is `None` when the environment variable is undefined. */
  datatype Config = Config(
    groqApiKey: Option<string>,
    pineconeApiKey: Option<string>,
    pineconeIndex: Option<string>)

  const GROQ_API_KEY_NAME := "NEXT_PUBLIC_GROQ_API_KEY"
  const PINECONE_API_KEY_NAME := "NEXT_PUBLIC_PINECONE_API_KEY"
  const PINECONE_INDEX_NAME := "NEXT_PUBLIC_PINECONE_INDEX"

  const MESSAGE_PREFIX := "Missing environment variables: "
  const MESSAGE_SUFFIX := ". Please check your .env.local file and restart the development server."

  /** The names in the order the validator checks them. */
  const ALL_NAMES: seq<string> := [GROQ_API_KEY_NAME, PINECONE_API_KEY_NAME, PINECONE_INDEX_NAME]

  /** JavaScript's `!v` on a `string | undefined`: undefined and the empty string are falsy. */
  predicate IsMissing(v: Option<string>)
  {
    v.None? || v.value == ""
  }

  /** All three settings are present and non-empty. */
  predicate Configured(env: Config)
  {
    !IsMissing(env.groqApiKey) && !IsMissing(env.pineconeApiKey) && !IsMissing(env.pineconeIndex)
  }

  /** A setting's variable name paired with its value. */
  datatype Setting = Setting(name: string, value: Option<string>)

  /** The settings of `env`, in the order the validator checks them. */
  function Settings(env: Config): (ss: seq<Setting>)
    ensures |ss| == |ALL_NAMES| && forall i :: 0 <= i < |ss| ==> ss[i].name == ALL_NAMES[i]
  {
    [Setting(GROQ_API_KEY_NAME, env.groqApiKey),
     Setting(PINECONE_API_KEY_NAME, env.pineconeApiKey),
     Setting(PINECONE_INDEX_NAME, env.pineconeIndex)]
  }

  /** The names of the missing settings among `ss`, in order. */
  function MissingOf(ss: seq<Setting>): seq<string>
  {
    if ss == [] then []
    else MissingName(ss[0]) + MissingOf(ss[1..])
  }

  /** The contribution of one check: `[name]` if the setting is missing, nothing otherwise. */
  function MissingName(s: Setting): seq<string>
  {
    if IsMissing(s.value) then [s.name] else []
  }

  /** Specification of `missingVars` once the three checks have run. */
  function MissingVars(env: Config): seq<string>
  {
    MissingOf(Settings(env))
  }

  /** The message of the error thrown for a non-empty list of missing names. */
  function ErrorMessage(missing: seq<string>): string
  {
    MESSAGE_PREFIX + Join(missing, ", ") + MESSAGE_SUFFIX
  }

  /** What `validateEnv` does: return normally, or throw an error with this message. */
  datatype Validation = Ok | Error(message: string)

  /** The position of a setting's name in the order of the checks. */
  function Rank(name: string): (k: nat)
    requires name in ALL_NAMES
    ensures k < |ALL_NAMES| && ALL_NAMES[k] == name
  {
    if name == GROQ_API_KEY_NAME then 0
    else if name == PINECONE_API_KEY_NAME then 1
    else 2
  }

  /**
   * `validateEnv`: push the name of every missing setting onto `missingVars`,
   * then throw if that list is non-empty.
   */
  method ValidateEnv(env: Config) returns (v: Validation)
    ensures v == if MissingVars(env) == [] then Ok else Error(ErrorMessage(MissingVars(env)))
    ensures v.Ok? <==> Configured(env)
    ensures v.Error? ==> MESSAGE_PREFIX <= v.message
    ensures v.Error? && IsMissing(env.groqApiKey) ==> Contains(v.message, GROQ_API_KEY_NAME)
    ensures v.Error? && IsMissing(env.pineconeApiKey) ==> Contains(v.message, PINECONE_API_KEY_NAME)
    ensures v.Error? && IsMissing(env.pineconeIndex) ==> Contains(v.message, PINECONE_INDEX_NAME)
  {
    var missingVars: seq<string> := [];
    if IsMissing(env.groqApiKey) { missingVars := missingVars + [GROQ_API_KEY_NAME]; }
    assert missingVars == MissingName(Setting(GROQ_API_KEY_NAME, env.groqApiKey));
    if IsMissing(env.pineconeApiKey) { missingVars := missingVars + [PINECONE_API_KEY_NAME]; }
    assert missingVars == MissingName(Setting(GROQ_API_KEY_NAME, env.groqApiKey)) +
      MissingName(Setting(PINECONE_API_KEY_NAME, env.pineconeApiKey));
    if IsMissing(env.pineconeIndex) { missingVars := missingVars + [PINECONE_INDEX_NAME]; }
    MissingVarsUnfold(env);
    assert missingVars == MissingVars(env);
    MissingVarsEmptyIff(env);
    if |missingVars| > 0 {
      v := Error(ErrorMessage(missingVars));
      ErrorNamesMissing(env);
    } else {
      v := Ok;
    }
  }

  /** Importing the module: validate on load, and export the record only if validation passed. */
  method LoadEnv(env: Config) returns (r: Result<Config, string>)
    ensures r.Success? <==> Configured(env)
    ensures r.Success? ==> r.value == env
    ensures r.Failure? ==> r.error == ErrorMessage(MissingVars(env))
  {
    var v := ValidateEnv(env);
    match v
    case Ok => r := Success(env);
    case Error(message) => r := Failure(message);
  }

  /** The list is the three checks' contributions, in order. */
  lemma MissingVarsUnfold(env: Config)
    ensures MissingVars(env) ==
      MissingName(Setting(GROQ_API_KEY_NAME, env.groqApiKey)) +
      MissingName(Setting(PINECONE_API_KEY_NAME, env.pineconeApiKey)) +
      MissingName(Setting(PINECONE_INDEX_NAME, env.pineconeIndex))
  {
    var ss := Settings(env);
    assert ss[1..] == [ss[1], ss[2]];
    assert ss[1..][1..] == [ss[2]];
    assert ss[1..][1..][1..] == [];
    assert MissingOf(ss[1..][1..]) == MissingName(ss[2]) + MissingOf(ss[1..][1..][1..]);
    assert MissingOf(ss[1..]) == MissingName(ss[1]) + MissingOf(ss[1..][1..]);
    assert MissingOf(ss) == MissingName(ss[0]) + MissingOf(ss[1..]);
  }

  /** A name is in `MissingOf(ss)` exactly when some missing setting of `ss` carries it. */
  lemma {:induction false} MissingOfMembership(ss: seq<Setting>, name: string)
    ensures name in MissingOf(ss) <==> exists i :: 0 <= i < |ss| && ss[i].name == name && IsMissing(ss[i].value)
  {
    if ss != [] {
      MissingOfMembership(ss[1..], name);
      if name in MissingOf(ss[1..]) {
        var i :| 0 <= i < |ss[1..]| && ss[1..][i].name == name && IsMissing(ss[1..][i].value);
        assert ss[i + 1] == ss[1..][i];
      }
      if exists i :: 0 <= i < |ss| && ss[i].name == name && IsMissing(ss[i].value) {
        var i :| 0 <= i < |ss| && ss[i].name == name && IsMissing(ss[i].value);
        if i > 0 {
          assert ss[1..][i - 1] == ss[i];
        }
      }
    }
  }

  /** The missing list never grows longer than the settings it was built from. */
  lemma {:induction false} MissingOfLength(ss: seq<Setting>)
    ensures |MissingOf(ss)| <= |ss|
  {
    if ss != [] {
      MissingOfLength(ss[1..]);
    }
  }

  /** A setting's name is in the list exactly when that setting is missing; nothing else is. */
  lemma MissingVarsMembership(env: Config, name: string)
    ensures name in MissingVars(env) <==>
      (name == GROQ_API_KEY_NAME && IsMissing(env.groqApiKey)) ||
      (name == PINECONE_API_KEY_NAME && IsMissing(env.pineconeApiKey)) ||
      (name == PINECONE_INDEX_NAME && IsMissing(env.pineconeIndex))
  {
    var ss := Settings(env);
    MissingOfMembership(ss, name);
    if name in MissingVars(env) {
      var i :| 0 <= i < |ss| && ss[i].name == name && IsMissing(ss[i].value);
      assert i == 0 || i == 1 || i == 2;
    } else {
      assert !(ss[0].name == name && IsMissing(ss[0].value));
      assert !(ss[1].name == name && IsMissing(ss[1].value));
      assert !(ss[2].name == name && IsMissing(ss[2].value));
    }
  }

  /** Validation passes exactly when every setting is present and non-empty. */
  lemma MissingVarsEmptyIff(env: Config)
    ensures MissingVars(env) == [] <==> Configured(env)
  {
    if MissingVars(env) != [] {
      MissingVarsMembership(env, MissingVars(env)[0]);
    } else {
      MissingVarsMembership(env, GROQ_API_KEY_NAME);
      MissingVarsMembership(env, PINECONE_API_KEY_NAME);
      MissingVarsMembership(env, PINECONE_INDEX_NAME);
    }
  }

  /** The list holds only known names, at most three, in the order checked, so without duplicates. */
  lemma MissingVarsOrdered(env: Config)
    ensures |MissingVars(env)| <= 3
    ensures forall i :: 0 <= i < |MissingVars(env)| ==> MissingVars(env)[i] in ALL_NAMES
    ensures forall i, j :: 0 <= i < j < |MissingVars(env)| ==> Rank(MissingVars(env)[i]) < Rank(MissingVars(env)[j])
    ensures forall i, j :: 0 <= i < j < |MissingVars(env)| ==> MissingVars(env)[i] != MissingVars(env)[j]
  {
    MissingOfLength(Settings(env));
    MissingVarsUnfold(env);
  }

  /** An empty string counts as missing, exactly as an undefined variable does. */
  lemma EmptyStringIsUndefined(env: Config)
    ensures MissingVars(env.(groqApiKey := Some(""))) == MissingVars(env.(groqApiKey := None))
    ensures MissingVars(env.(pineconeApiKey := Some(""))) == MissingVars(env.(pineconeApiKey := None))
    ensures MissingVars(env.(pineconeIndex := Some(""))) == MissingVars(env.(pineconeIndex := None))
  {
    MissingVarsUnfold(env.(groqApiKey := Some("")));
    MissingVarsUnfold(env.(groqApiKey := None));
    MissingVarsUnfold(env.(pineconeApiKey := Some("")));
    MissingVarsUnfold(env.(pineconeApiKey := None));
    MissingVarsUnfold(env.(pineconeIndex := Some("")));
    MissingVarsUnfold(env.(pineconeIndex := None));
  }

  /** The error message names every missing setting. */
  lemma MessageNamesEveryMissing(missing: seq<string>)
    ensures forall k :: 0 <= k < |missing| ==> Contains(ErrorMessage(missing), missing[k])
  {
    forall k | 0 <= k < |missing|
      ensures Contains(ErrorMessage(missing), missing[k])
    {
      JoinContainsEach(missing, ", ", k);
      ContainsMiddle(MESSAGE_PREFIX, Join(missing, ", "), MESSAGE_SUFFIX, missing[k]);
    }
  }

  /** The message of a failed validation starts with the fixed prefix and names each missing setting. */
  lemma ErrorNamesMissing(env: Config)
    ensures MESSAGE_PREFIX <= ErrorMessage(MissingVars(env))
    ensures IsMissing(env.groqApiKey) ==> Contains(ErrorMessage(MissingVars(env)), GROQ_API_KEY_NAME)
    ensures IsMissing(env.pineconeApiKey) ==> Contains(ErrorMessage(MissingVars(env)), PINECONE_API_KEY_NAME)
    ensures IsMissing(env.pineconeIndex) ==> Contains(ErrorMessage(MissingVars(env)), PINECONE_INDEX_NAME)
  {
    var m := MissingVars(env);
    MessageNamesEveryMissing(m);
    assert ErrorMessage(m) == MESSAGE_PREFIX + (Join(m, ", ") + MESSAGE_SUFFIX);
    MissingVarsMembership(env, GROQ_API_KEY_NAME);
    MissingVarsMembership(env, PINECONE_API_KEY_NAME);
    MissingVarsMembership(env, PINECONE_INDEX_NAME);
  }

  /** With nothing configured, the message lists all three names in order. */
  lemma AllMissingMessage(env: Config)
    requires IsMissing(env.groqApiKey) && IsMissing(env.pineconeApiKey) && IsMissing(env.pineconeIndex)
    ensures MissingVars(env) == ALL_NAMES
    ensures ErrorMessage(MissingVars(env)) ==
      MESSAGE_PREFIX + (GROQ_API_KEY_NAME + ", " + PINECONE_API_KEY_NAME + ", " + PINECONE_INDEX_NAME) + MESSAGE_SUFFIX
  {
    MissingVarsUnfold(env);
    JoinThree(GROQ_API_KEY_NAME, PINECONE_API_KEY_NAME, PINECONE_INDEX_NAME, ", ");
  }
}
