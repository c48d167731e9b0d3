/** Fixed texts of the assistant: the welcome messages a chat starts with
    and the folder icons. They are written as the code points of the source
    file's text, which shows the emoji and bullet characters in a Mac Roman
    reading of their UTF-8 bytes (so the folder emoji appears as four
    characters); only their identity matters to the model. The long texts are
    written as a concatenation of short pieces. */
module Texts {

  /** The greeting of the chat the assistant starts with (App.tsx:131). */
  const InitialGreeting: string :=
    "Hello! I'm your **Advanced AI Coding " +
    "Assistant** with powerful features:\n" +
    "\n" +
    "\U{F8FF}\U{00FC}\U{00F6}\U{00C4} **Code Intelligence**\n" +
    "\U{201A}\U{00C4}\U{00A2} Smart autocomplete & suggestions\n" +
    "\U{201A}\U{00C4}\U{00A2} Multi-language support (Python, " +
    "JS, C++, Rust, etc.)\n" +
    "\U{201A}\U{00C4}\U{00A2} Real-time code analysis\n" +
    "\n" +
    "\U{F8FF}\U{00FC}\U{00EE}\U{00ED} **Security & Quality**\n" +
    "\U{201A}\U{00C4}\U{00A2} Security vulnerability scanning\n" +
    "\U{201A}\U{00C4}\U{00A2} Performance optimization advice\n" +
    "\U{201A}\U{00C4}\U{00A2} Best practices enforcement\n" +
    "\n" +
    "\U{F8FF}\U{00FC}\U{00DF}\U{2122} **Testing & Documentation**\n" +
    "\U{201A}\U{00C4}\U{00A2} Unit test generation\n" +
    "\U{201A}\U{00C4}\U{00A2} Code documentation\n" +
    "\U{201A}\U{00C4}\U{00A2} Algorithm explanations\n" +
    "\n" +
    "\U{F8FF}\U{00FC}\U{00ED}\U{00B0} **Advanced Features**\n" +
    "\U{201A}\U{00C4}\U{00A2} Split view with editable code " +
    "pane\n" +
    "\U{201A}\U{00C4}\U{00A2} Context-aware suggestions\n" +
    "\U{201A}\U{00C4}\U{00A2} Project structure understanding\n" +
    "\n" +
    "Upload a file or describe what you " +
    "need, and I'll help you code it!"

  /** The greeting of a chat created outside enterprise mode (App.tsx:540). */
  const DemoGreeting: string :=
    "Hello! I'm your AI coding assistant. " +
    "I can help you with:\n" +
    "\n" +
    "\U{201A}\U{00C4}\U{00A2} **Code Generation**: Write code " +
    "from descriptions\n" +
    "\U{201A}\U{00C4}\U{00A2} **Code Review**: Analyze and " +
    "improve your code\n" +
    "\U{201A}\U{00C4}\U{00A2} **Debugging**: Find and fix " +
    "issues\n" +
    "\U{201A}\U{00C4}\U{00A2} **Algorithm Design**: Optimize " +
    "solutions\n" +
    "\U{201A}\U{00C4}\U{00A2} **Best Practices**: Follow coding " +
    "standards\n" +
    "\n" +
    "Upload a file or describe what you " +
    "need, and I'll help you code it!"

  /** The terms notice a chat created in enterprise mode starts with (App.tsx:510-533). */
  const EnterpriseTerms: string :=
    "**E& ChatGPT-4.1 Terms and Conditions**\n" +
    "\n" +
    "ChatGPT is a research tool which " +
    "can provide information as a response " +
    "to generic questions, which are " +
    "not specific to Etisalat and its " +
    "affairs. It is a public platform " +
    "where communications are not encrypted " +
    "and such data could be leaked and " +
    "used by third parties.\n" +
    "\n" +
    "As an employee of Etisalat, you " +
    "have a duty of confidentiality to " +
    "Etisalat which you have undertaken " +
    "as a condition to your employment. " +
    "You are bound by all confidentiality " +
    "obligations at law, under your employment " +
    "contract, Human Resources Manual " +
    "and as set by Etisalat, such as " +
    "ongoing compliance with all internal " +
    "IT/Security policies [Click here](https://go" +
    ".skype.com.rproxy.goskope.com/cards.unsuppor" +
    "ted.).\n" +
    "\n" +
    "**DO NOT disclose:**\n" +
    "\U{201A}\U{00C4}\U{00A2} Any personal data such as your " +
    "salary, passwords, bank details " +
    "etc.\n" +
    "\U{201A}\U{00C4}\U{00A2} Any information of Etisalat " +
    "which is not in the public domain " +
    "as this is confidential and often " +
    "restricted sensitive business information " +
    "of Etisalat.\n" +
    "\n" +
    "As a reminder, confidential data " +
    "will include (but this is not an " +
    "exhaustive list):\n" +
    "\U{201A}\U{00C4}\U{00A2} Any data and information relating " +
    "to a Etisalat's suppliers, customers, " +
    "affiliates and their customers;\n" +
    "\U{201A}\U{00C4}\U{00A2} The fact that discussions and " +
    "negotiations are taking place concerning " +
    "projects or transactions and the " +
    "status of those discussions and " +
    "negotiations;\n" +
    "\U{201A}\U{00C4}\U{00A2} The existence and terms of agreements " +
    "where Etisalat is a party to them;\n" +
    "\U{201A}\U{00C4}\U{00A2} Any information that would be " +
    "regarded as confidential by a reasonable " +
    "business person relating to:\n" +
    "  - (i) The business, affairs, customers, " +
    "clients, suppliers, plans, intentions, " +
    "or market opportunities, and\n" +
    "  - (ii) The operations, processes, " +
    "product information, site-information, " +
    "know-how, designs, trade secrets " +
    "or software; and\n" +
    "  - (iii) Any other commercial, " +
    "financial, legal, technical and/or " +
    "other information, including any " +
    "devices, graphics, systems, drawings, " +
    "specifications, data, written information " +
    "or information in other tangible " +
    "form; any information or analysis " +
    "derived from the confidential information " +
    "including all notes, memos, reports, " +
    "calculations, compilations, analyses, " +
    "forecasts, conclusions, summaries " +
    "or other material generated or produced " +
    "partly or wholly from any confidential " +
    "information\n" +
    "\n" +
    "**In addition, DO NOT:**\n" +
    "\U{201A}\U{00C4}\U{00A2} Rely on any responses of ChatGPT " +
    "in carrying out your work responsibilities " +
    "or discharging your duties. This " +
    "is because ChatGPT is merely a tool " +
    "and a virtual assistant which cannot " +
    "replace human work, advice and governance " +
    "set by Etisalat.\n" +
    "\U{201A}\U{00C4}\U{00A2} Copy and paste into the ChatGPT " +
    "any company information, data or " +
    "text from Outlook, MT or other work " +
    "apps/systems/docs or platforms of " +
    "Etisalat.\n" +
    "\n" +
    "**Please accept the terms and conditions " +
    "to proceed**"

  /** The icon of the "General" folder and of every folder the user creates (App.tsx:163, App.tsx:1079). */
  const FolderIcon: string := "\U{F8FF}\U{00FC}\U{00EC}\U{00C5}"

  /** The icons of the other three initial folders (App.tsx:164-166). */
  const WorkIcon: string := "\U{F8FF}\U{00FC}\U{00ED}\U{00BA}"
  const PersonalIcon: string := "\U{F8FF}\U{00FC}\U{00EB}\U{00A7}"
  const ProjectsIcon: string := "\U{F8FF}\U{00FC}\U{00F6}\U{00C4}"

  /** The mark in front of a provider error message (App.tsx:628). */
  const ErrorMark: string := "\U{201A}\U{00F9}\U{00E5}"
}
