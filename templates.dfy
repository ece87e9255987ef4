/**
 * The prompt templates: each transform differs from the ChatML base only in its four tokens
 * (user, assistant, system and end), so a template is the set of those four strings.
 */
module Templates {

  /** The four tokens a history transform wraps turns in. */
  datatype TemplateSet = TemplateSet(userToken: string, assistantToken: string, systemToken: string, endToken: string)

  /** The ChatML base transform. */
  const ChatML := TemplateSet("<|im_start|>user", "<|im_start|>assistant", "<|im_start|>system", "<|im_end|>")

  /** The Gemma transform: the model turn is called "model" and there is no system token. */
  const Gemma := TemplateSet("<start_of_turn>user", "<start_of_turn>model", "", "<end_of_turn>")

  /** The LLama 3 transform of the CPU server; each header token ends in a line break. */
  const LLamaCpu := TemplateSet(
    "<|start_header_id|>user<|end_header_id|>\n",
    "<|start_header_id|>assistant<|end_header_id|>\n",
    "<|start_header_id|>system<|end_header_id|>\n",
    "<|eot_id|>")

  /** The LLama 3 transform of the gateway library. */
  const LLamaAI := TemplateSet(
    "<|start_header_id|>user<|end_header_id|>\n",
    "<|start_header_id|>assistant<|end_header_id|>\n",
    "<|start_header_id|>system<|end_header_id|>\n",
    "<|eot_id|>")

  /** The Zephyr transform. */
  const Zephyr := TemplateSet("<|user|>", "<|assistant|>", "<|system|>", "<|end|>")
}
