/** Chat-completion messages as the three programs build them. */
module Chat {

  /** The `role` key of a message; a function-result message also names the function. */
  datatype Role = System | User | Assistant | FunctionResult(name: string)

  datatype Message = Message(role: Role, content: string)
}
