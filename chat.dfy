/** The chat messages both agents keep in their histories: `{"role": …, "content": …}`. */
module Chat {

  datatype Role = System | User | Assistant

  datatype Message = Message(role: Role, content: string)
}
