/** Configuration lookup: the process environment and the two required
    variables, TOKEN_MIRO and BOARD_ID, that every board operation reads. */
module Config {

  /** A Go `error` as the model sees it: nil, or an error carrying its message. */
  datatype Status = Nil | Error(msg: string)

  /** A value together with a Go `error`: exactly one of the two is meaningful. */
  datatype Result<T> = Ok(value: T) | Err(msg: string)

  /** The process environment. A variable that is not set reads as "". */
  type Env = map<string, string>

  const TokenMiro: string := "TOKEN_MIRO"
  const BoardId: string := "BOARD_ID"

  /** os.Getenv: the value of the variable, or "" when it is not set. */
  function Getenv(env: Env, name: string): (v: string)
    ensures name in env ==> v == env[name]
    ensures name !in env ==> v == ""
  {
    if name in env then env[name] else ""
  }

  const UnsetPrefix: string := "environmental variable "
  const UnsetSuffix: string := " does not set"

  /** The error message the getters return for a variable that is not set:
      it names the variable. */
  function UnsetMessage(name: string): (m: string)
    ensures |m| == |UnsetPrefix| + |name| + |UnsetSuffix|
    ensures m[..|UnsetPrefix|] == UnsetPrefix
    ensures m[|UnsetPrefix|..|UnsetPrefix| + |name|] == name
    ensures m[|UnsetPrefix| + |name|..] == UnsetSuffix
  {
    UnsetPrefix + name + UnsetSuffix
  }

  /** A variable the program cannot run without: set and non-empty, or an error
      naming it. A variable set to "" is treated like one that is not set. */
  function Required(env: Env, name: string): (r: Result<string>)
    ensures r.Ok? <==> name in env && env[name] != ""
    ensures r.Ok? ==> r.value == env[name]
    ensures r.Err? ==> r.msg == UnsetMessage(name)
  {
    var v := Getenv(env, name);
    if v == "" then Err(UnsetMessage(name)) else Ok(v)
  }

  /** getTokenMiro: the Miro API token. */
  function GetTokenMiro(env: Env): (r: Result<string>)
    ensures r.Ok? <==> TokenMiro in env && env[TokenMiro] != ""
    ensures r.Ok? ==> r.value == env[TokenMiro] && r.value != ""
    ensures r.Err? ==> r.msg == UnsetMessage(TokenMiro)
  {
    Required(env, TokenMiro)
  }

  /** getBoardID: the identifier of the board to watch. */
  function GetBoardId(env: Env): (r: Result<string>)
    ensures r.Ok? <==> BoardId in env && env[BoardId] != ""
    ensures r.Ok? ==> r.value == env[BoardId] && r.value != ""
    ensures r.Err? ==> r.msg == UnsetMessage(BoardId)
  {
    Required(env, BoardId)
  }
}
