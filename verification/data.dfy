/** The decoded request body and the device row it becomes. */
module Data {

  /** The `CLab` sub-object of the body. */
  datatype CLabInfo = CLabInfo(appID: string, language: string)

  /** The JSON body of a PUT; `UserInfo` is kept as a plain string. */
  datatype Data = Data(clab: CLabInfo, userInfo: string)

  /** `NewData`: the zero record the JSON decoder fills in. */
  function NewData(): (d: Data)
    ensures d.clab.appID == "" && d.clab.language == ""
    ensures d.userInfo == ""
  {
    Data(CLabInfo("", ""), "")
  }

  /** One row of the `devices` table, keyed by device token. */
  datatype Row = Row(vendor: string, userInfo: string, appID: string, language: string)
}
